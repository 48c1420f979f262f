/** When lost slots fill the high watermark, the service accepts nothing any more. */
module Starvation {
  import opened Messages
  import opened Seqs
  import opened HeartbeatModel
  import opened Runs
  import opened Ledger
  import opened Delivery
  import opened Load
  import opened Failures
  import opened Binding

  /** Neither a job nor a frame separates the two, and so no binding. */
  ghost predicate NothingAccepted(w: Work, v: Work) {
    v.out.jobs == w.out.jobs && v.out.frames == w.out.frames && v.audit.bound == w.audit.bound
  }

  lemma ClosedHandle(cfg: Config, w: Work, m: Message, c: Choice)
    requires !Admits(cfg, w.metrics)
    ensures NothingAccepted(w, Handle(cfg, w, m, c)) && Handle(cfg, w, m, c).audit.emitted == w.audit.emitted
  {
    if m.WsEvent? { EventsAreQuiet(w.(audit := w.audit.(clock := c.now)), m.rsp, c); }
  }

  lemma {:induction false} ScanAccepts(w: Work, ready: seq<Id>)
    ensures NothingAccepted(w, EmitAll(w, ready))
    decreases |ready|
  {
    if ready != [] { ScanAccepts(EmitOne(w, ready[0]), ready[1..]); }
  }

  lemma SameMix(w: Work, v: Work)
    requires NothingAccepted(w, v) && Unmixed(w)
    ensures Unmixed(v)
  {
    UnmixedBefore(v, w);
  }

  /** The invariants in the middle of a batch. */
  ghost predicate Sane(cfg: Config, w: Work, batch: seq<Message>, results: seq<Synthesis>, asked: seq<Id>) {
    && cfg.highWatermark < WORD && Within(cfg, w) && Unmixed(w)
    && Balanced(w, AskIds(batch), asked) && AllTracked(cfg, w, DoneWrites(batch), results)
  }

  lemma HandleSane(cfg: Config, w: Work, batch: seq<Message>, c: Choice, results: seq<Synthesis>, asked: seq<Id>)
    requires batch != [] && Sane(cfg, w, batch, results, asked) && !Admits(cfg, w.metrics)
    ensures Sane(cfg, Handle(cfg, w, batch[0], c), batch[1..], results, asked)
  {
    ClosedHandle(cfg, w, batch[0], c);
    SameMix(w, Handle(cfg, w, batch[0], c));
    HandleWithin(cfg, w, batch[0], c, DoneWrites(batch[1..]), results, AskIds(batch[1..]), asked);
  }

  lemma TickSane(cfg: Config, w: World)
    requires cfg.highWatermark < WORD && Within(cfg, w.hb) && Steady(cfg, w) && Unmixed(w.hb)
    ensures Sane(cfg, Fresh(w.hb), w.Todo(), w.results, w.asked)
  {
    TodoAllTracked(cfg, w);
    UnmixedBefore(Fresh(w.hb), w.hb);
  }

  /** What a continuation starts from: true counters, and no id on both routes. */
  ghost predicate Clear(cfg: Config, w: World) {
    Steady(cfg, w) && Within(cfg, w.hb) && Unmixed(w.hb)
  }

  lemma NextClear(cfg: Config, w: World, s: Step)
    requires cfg.highWatermark < WORD && Clear(cfg, w) && Enabled(cfg, w, s) && EngineReports(s)
    requires NothingAccepted(w.hb, Next(cfg, w, s).hb)
    ensures Clear(cfg, Next(cfg, w, s))
  {
    SameMix(w.hb, Next(cfg, w, s).hb);
    NextWithin(cfg, w, s);
    NextSteady(cfg, w, s);
  }

  lemma {:induction false} ClearRun(cfg: Config, start: World, steps: seq<Step>, w: World)
    requires cfg.highWatermark < WORD && ServiceRun(cfg, start, steps) && w == After(cfg, start, steps) && Unmixed(w.hb)
    ensures Clear(cfg, w)
  {
    StartSteady(cfg, start);
    RunSteady(cfg, start, steps);
    BoundedLoad(cfg, start, steps);
  }

  // ---- requests that are never bound ---------------------------------------------------------

  lemma BoundIsOpen(cfg: Config, w: Work, done: seq<Write>, results: seq<Synthesis>)
    requires Tracked(cfg, w, done, results, "") && w.audit.emitted == []
    ensures |w.audit.bound| <= Open(w)
  {
    assert |Promised(w.out.jobs, results)| == |w.audit.delivered| + |done|;
  }

  lemma {:induction false} UnboundBatch(cfg: Config, w: Work, batch: seq<Message>, choices: seq<Choice>,
                                        results: seq<Synthesis>, asked: seq<Id>)
    requires |choices| == |batch| && Sane(cfg, w, batch, results, asked)
    requires w.audit.emitted == [] && |w.audit.bound| >= cfg.highWatermark
    ensures NothingAccepted(w, Process(cfg, w, batch, choices))
    decreases |batch|
  {
    if batch != [] {
      BoundIsOpen(cfg, w, DoneWrites(batch), results);
      ClosedHandle(cfg, w, batch[0], choices[0]);
      HandleSane(cfg, w, batch, choices[0], results, asked);
      UnboundBatch(cfg, Handle(cfg, w, batch[0], choices[0]), batch[1..], choices[1..], results, asked);
    }
  }

  /** Nothing was emitted, and the upstream requests fill the watermark. */
  ghost predicate UnboundFull(cfg: Config, w: World) {
    && Clear(cfg, w) && w.hb.audit.emitted == [] && |w.hb.audit.bound| >= cfg.highWatermark
    && forall id :: Unstreamed(w.hb, id)
  }

  lemma NoneEmitted(cfg: Config, w: World)
    requires Steady(cfg, w) && Unmixed(w.hb) && forall id :: Unstreamed(w.hb, id)
    ensures w.hb.audit.emitted == []
  {
    forall id ensures id !in w.hb.audit.emitted {
      assert WorldTracked(cfg, w, id) && Unstreamed(w.hb, id) && !Mixed(w.hb, id);
    }
    HeadIn(w.hb.audit.emitted);
  }

  lemma UnboundTickAccepts(cfg: Config, w: World, plan: Plan)
    requires cfg.highWatermark < WORD && UnboundFull(cfg, w) && Enabled(cfg, w, TickStep(plan))
    ensures NothingAccepted(w.hb, Next(cfg, w, TickStep(plan)).hb)
  {
    TickSane(cfg, w);
    UnboundBatch(cfg, Fresh(w.hb), w.Todo(), plan.choices, w.results, w.asked);
    ScanAccepts(Process(cfg, Fresh(w.hb), w.Todo(), plan.choices), plan.ready);
  }

  lemma NextUnboundFull(cfg: Config, w: World, s: Step)
    requires cfg.highWatermark < WORD && UnboundFull(cfg, w) && Enabled(cfg, w, s) && EngineReports(s) && !s.Bind?
    ensures UnboundFull(cfg, Next(cfg, w, s)) && NothingAccepted(w.hb, Next(cfg, w, s).hb)
  {
    if s.TickStep? { UnboundTickAccepts(cfg, w, s.plan); }
    NextClear(cfg, w, s);
    forall id ensures Unstreamed(Next(cfg, w, s).hb, id) { NextUnstreamed(cfg, w, s, id); }
    NoneEmitted(cfg, Next(cfg, w, s));
  }

  lemma {:induction false} RunUnboundFull(cfg: Config, w: World, steps: seq<Step>)
    requires cfg.highWatermark < WORD && UnboundFull(cfg, w) && Legal(cfg, w, steps)
    requires forall s <- steps :: EngineReports(s) && !s.Bind?
    ensures NothingAccepted(w.hb, After(cfg, w, steps).hb)
    decreases |steps|
  {
    if steps != [] {
      assert steps[0] in steps;
      NextUnboundFull(cfg, w, steps[0]);
      RunUnboundFull(cfg, Next(cfg, w, steps[0]), steps[1..]);
    }
  }

  /**
   * Without binding steps every accepted upstream request holds its slot for good, and when as many have been accepted
   * as the high watermark allows, however the run goes on and whatever ids it uses, no further job or frame is made.
   */
  lemma {:induction false} UnboundSlotsStarve(cfg: Config, start: World, before: seq<Step>, w: World, later: seq<Step>)
    requires cfg.highWatermark < WORD && ServiceRun(cfg, start, before) && w == After(cfg, start, before)
    requires (forall s <- before :: !s.Bind?) && Unmixed(w.hb)
    requires Legal(cfg, w, later) && forall s <- later :: EngineReports(s) && !s.Bind?
    ensures |w.hb.audit.bound| <= w.hb.metrics.inflight <= cfg.highWatermark
    ensures |w.hb.audit.bound| == cfg.highWatermark ==> NothingAccepted(w.hb, After(cfg, w, later).hb)
  {
    ClearRun(cfg, start, before, w);
    forall id ensures Unstreamed(w.hb, id) { RunUnstreamed(cfg, start, before, id); }
    NoneEmitted(cfg, w);
    assert WorldTracked(cfg, w, "");
    BoundIsOpen(cfg, w.hb, DoneWrites(w.reqQ), w.results);
    if |w.hb.audit.bound| == cfg.highWatermark { RunUnboundFull(cfg, w, later); }
  }

  // ---- requests that failed or were cancelled ------------------------------------------------

  ghost predicate SlotsLost(w: Work, lost: set<Id>) { forall id <- lost :: SlotLost(w, id) }

  lemma LostIsOpen(cfg: Config, w: Work, done: seq<Write>, results: seq<Synthesis>, lost: set<Id>)
    requires AllTracked(cfg, w, done, results) && Unmixed(w) && SlotsLost(w, lost)
    ensures |lost| <= Open(w)
  {
    forall id ensures multiset(WriteIds(w.out.writes))[id] + (if id in lost then 1 else 0)
                      <= multiset(JobIds(w.out.jobs))[id] + multiset(w.audit.bound)[id]
    {
      UnmixedOpen(cfg, w, done, results, id);
    }
    SlotsCounted(w, lost);
  }

  /** While admission is closed a lost slot stays lost: asking again is denied, and no report can name the id. */
  lemma HandleLost(cfg: Config, w: Work, m: Message, c: Choice, done: seq<Write>, results: seq<Synthesis>, id: Id)
    requires !Admits(cfg, w.metrics) && SlotLost(w, id) && InOrder(w, DoneWrite(m) + done, results)
    ensures SlotLost(Handle(cfg, w, m, c), id)
  {
    if m.IsDone() {
      assert WriteIds(DoneWrite(m) + done)[0] == DoneWrite(m)[0].id;
      if DoneWrite(m)[0].id == id { ReportsNameJobs(w, DoneWrite(m) + done, results, id); }
    }
    if !m.Ask? { HandleSilent(cfg, w, m, c, id); }
  }

  lemma {:induction false} LostBatch(cfg: Config, w: Work, batch: seq<Message>, choices: seq<Choice>,
                                     results: seq<Synthesis>, asked: seq<Id>, lost: set<Id>)
    requires |choices| == |batch| && Sane(cfg, w, batch, results, asked)
    requires SlotsLost(w, lost) && |lost| >= cfg.highWatermark
    ensures NothingAccepted(w, Process(cfg, w, batch, choices)) && SlotsLost(Process(cfg, w, batch, choices), lost)
    decreases |batch|
  {
    if batch != [] {
      var m, c := batch[0], choices[0];
      LostIsOpen(cfg, w, DoneWrites(batch), results, lost);
      ClosedHandle(cfg, w, m, c);
      HandleSane(cfg, w, batch, c, results, asked);
      assert Tracked(cfg, w, DoneWrites(batch), results, "");
      forall id <- lost ensures SlotLost(Handle(cfg, w, m, c), id) {
        HandleLost(cfg, w, m, c, DoneWrites(batch[1..]), results, id);
      }
      LostBatch(cfg, Handle(cfg, w, m, c), batch[1..], choices[1..], results, asked, lost);
    }
  }

  /** The lost slots fill the watermark. */
  ghost predicate LostFull(cfg: Config, w: World, lost: set<Id>) {
    Clear(cfg, w) && |lost| >= cfg.highWatermark && SlotsLost(w.hb, lost)
  }

  lemma LostTick(cfg: Config, w: World, plan: Plan, lost: set<Id>)
    requires cfg.highWatermark < WORD && LostFull(cfg, w, lost) && Enabled(cfg, w, TickStep(plan))
    ensures NothingAccepted(w.hb, Next(cfg, w, TickStep(plan)).hb)
    ensures SlotsLost(Next(cfg, w, TickStep(plan)).hb, lost)
  {
    var v := Process(cfg, Fresh(w.hb), w.Todo(), plan.choices);
    TickSane(cfg, w);
    LostBatch(cfg, Fresh(w.hb), w.Todo(), plan.choices, w.results, w.asked, lost);
    ScanAccepts(v, plan.ready);
    forall id <- lost ensures SlotLost(Next(cfg, w, TickStep(plan)).hb, id) { FinishSilent(v, plan, id); }
  }

  lemma NextLostFull(cfg: Config, w: World, s: Step, lost: set<Id>)
    requires cfg.highWatermark < WORD && LostFull(cfg, w, lost) && Enabled(cfg, w, s) && EngineReports(s)
    ensures LostFull(cfg, Next(cfg, w, s), lost) && NothingAccepted(w.hb, Next(cfg, w, s).hb)
  {
    if s.TickStep? { LostTick(cfg, w, s.plan, lost); }
    NextClear(cfg, w, s);
  }

  lemma {:induction false} RunLostFull(cfg: Config, w: World, steps: seq<Step>, lost: set<Id>)
    requires cfg.highWatermark < WORD && LostFull(cfg, w, lost) && Legal(cfg, w, steps)
    requires forall s <- steps :: EngineReports(s)
    ensures NothingAccepted(w.hb, After(cfg, w, steps).hb)
    decreases |steps|
  {
    if steps != [] {
      assert steps[0] in steps;
      NextLostFull(cfg, w, steps[0], lost);
      RunLostFull(cfg, Next(cfg, w, steps[0]), steps[1..], lost);
    }
  }

  /**
   * The slot of a failed or cancelled upstream request stays counted, and once such slots fill the high watermark,
   * however the run goes on, even if the lost ids are asked for again, no further job or frame is ever made.
   */
  lemma {:induction false} AbandonedSlotsStarve(cfg: Config, start: World, before: seq<Step>, w: World,
                                                later: seq<Step>, lost: set<Id>)
    requires cfg.highWatermark < WORD && ServiceRun(cfg, start, before) && w == After(cfg, start, before)
    requires Unmixed(w.hb) && forall id <- lost :: SlotLost(w.hb, id)
    requires Legal(cfg, w, later) && forall s <- later :: EngineReports(s)
    ensures |lost| <= w.hb.metrics.inflight
    ensures |lost| >= cfg.highWatermark ==> NothingAccepted(w.hb, After(cfg, w, later).hb)
  {
    ClearRun(cfg, start, before, w);
    forall id ensures Tracked(cfg, w.hb, DoneWrites(w.reqQ), w.results, id) { assert WorldTracked(cfg, w, id); }
    LostIsOpen(cfg, w.hb, DoneWrites(w.reqQ), w.results, lost);
    if |lost| >= cfg.highWatermark { RunLostFull(cfg, w, later, lost); }
  }
}
