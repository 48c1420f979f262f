/**
 * What the outside binding step is needed for: no handler moves an upstream request from awaiting its session to
 * streaming, and only streaming requests are emitted.
 */
module Binding {
  import opened Messages
  import opened Seqs
  import opened Pendings
  import opened HeartbeatModel
  import opened Runs
  import opened Ledger
  import opened Delivery
  import opened Load
  import opened Failures

  /** An id that never went local is not streaming and was not emitted. */
  ghost predicate Unstreamed(w: Work, id: Id) {
    id !in JobIds(w.out.jobs) ==>
      id !in w.audit.emitted && (id in w.pending ==> w.pending[id].state != PendingState.Streaming)
  }

  lemma AskUnstreamed(cfg: Config, w: Work, req: Request, c: Choice, id: Id)
    requires Unstreamed(w, id)
    ensures Unstreamed(HandleAsk(cfg, w, req, c), id)
  {
    AppendJob(w.out.jobs, JobOf(req));
    assert JobIds(w.out.jobs + [JobOf(req)])[|w.out.jobs|] == req.id;
  }

  lemma EventUnstreamed(w: Work, rsp: Response, c: Choice, id: Id)
    requires Unstreamed(w, id)
    ensures Unstreamed(HandleEvent(w, rsp, c), id)
  {
    EventsAreQuiet(w, rsp, c);
    EventKeepsIds(w, rsp, c);
  }

  lemma HandleUnstreamed(cfg: Config, w: Work, m: Message, c: Choice, id: Id)
    requires Unstreamed(w, id)
    ensures Unstreamed(Handle(cfg, w, m, c), id)
  {
    var v := w.(audit := w.audit.(clock := c.now));
    match m
    case Ask(req) => AskUnstreamed(cfg, v, req, c, id);
    case WsEvent(rsp) => EventUnstreamed(v, rsp, c, id);
    case _ =>
  }

  lemma {:induction false} ProcessUnstreamed(cfg: Config, w: Work, batch: seq<Message>, choices: seq<Choice>, id: Id)
    requires |choices| == |batch| && Unstreamed(w, id)
    ensures Unstreamed(Process(cfg, w, batch, choices), id)
    decreases |batch|
  {
    if batch != [] {
      HandleUnstreamed(cfg, w, batch[0], choices[0], id);
      ProcessUnstreamed(cfg, Handle(cfg, w, batch[0], choices[0]), batch[1..], choices[1..], id);
    }
  }

  lemma {:induction false} EmitAllUnstreamed(w: Work, ready: seq<Id>, id: Id)
    requires Unstreamed(w, id) && Emittable(w, ready)
    ensures Unstreamed(EmitAll(w, ready), id)
    decreases |ready|
  {
    if ready != [] {
      assert ready[0] in ready;
      EmittableNext(w, ready);
      EmitAllUnstreamed(EmitOne(w, ready[0]), ready[1..], id);
    }
  }

  lemma NextUnstreamed(cfg: Config, w: World, s: Step, id: Id)
    requires Unstreamed(w.hb, id) && Enabled(cfg, w, s) && (s.Bind? ==> s.id != id)
    ensures Unstreamed(Next(cfg, w, s).hb, id)
  {
    if s.TickStep? {
      ProcessUnstreamed(cfg, Fresh(w.hb), w.Todo(), s.plan.choices, id);
      EmitAllUnstreamed(Process(cfg, Fresh(w.hb), w.Todo(), s.plan.choices), s.plan.ready, id);
    }
  }

  lemma {:induction false} RunUnstreamed(cfg: Config, w: World, steps: seq<Step>, id: Id)
    requires Unstreamed(w.hb, id) && Legal(cfg, w, steps) && forall s <- steps :: s.Bind? ==> s.id != id
    ensures Unstreamed(After(cfg, w, steps).hb, id)
    decreases |steps|
  {
    if steps != [] {
      assert steps[0] in steps;
      NextUnstreamed(cfg, w, steps[0], id);
      RunUnstreamed(cfg, Next(cfg, w, steps[0]), steps[1..], id);
    }
  }

  /**
   * In every run, an id that no binding step names and that never went local is never emitted: however many final
   * chunks arrive for it, and whatever happens to other ids.
   */
  lemma {:induction false} NeverEmittedUnbound(cfg: Config, start: World, steps: seq<Step>, id: Id)
    requires AnyRun(cfg, start, steps) && forall s <- steps :: s.Bind? ==> s.id != id
    ensures var w := After(cfg, start, steps).hb; id !in JobIds(w.out.jobs) ==> id !in w.audit.emitted
  {
    RunUnstreamed(cfg, start, steps, id);
  }

  /** When only the engine loop reports, such an id gets no client write at all. */
  lemma {:induction false} NeverWrittenUnbound(cfg: Config, start: World, steps: seq<Step>, id: Id)
    requires ServiceRun(cfg, start, steps) && forall s <- steps :: s.Bind? ==> s.id != id
    ensures var w := After(cfg, start, steps).hb; id !in JobIds(w.out.jobs) ==> WriteCount(w, id) == 0
  {
    NeverEmittedUnbound(cfg, start, steps, id);
    RunInvariants(cfg, start, steps, id);
    var w := After(cfg, start, steps);
    if id !in JobIds(w.hb.out.jobs) { Unwritten(w.hb, DoneWrites(w.reqQ), w.results, id); }
  }

  lemma Unwritten(w: Work, done: seq<Write>, results: seq<Synthesis>, id: Id)
    requires InOrder(w, done, results) && TwoKinds(w) && id !in JobIds(w.out.jobs) && id !in w.audit.emitted
    ensures WriteCount(w, id) == 0
  {
    JobsAccounted(w, done, results);
    assert multiset(WriteIds(w.audit.delivered))[id] <= multiset(JobIds(w.out.jobs))[id] == 0;
    assert multiset(w.audit.emitted)[id] == 0;
  }

  /** Without any binding step, and with ids kept to one route, every client write is a local one. */
  lemma {:induction false} NothingUpstreamUnbound(cfg: Config, start: World, steps: seq<Step>)
    requires ServiceRun(cfg, start, steps) && (forall s <- steps :: !s.Bind?) && Unmixed(After(cfg, start, steps).hb)
    ensures var w := After(cfg, start, steps).hb; w.audit.emitted == [] && w.out.writes == w.audit.delivered
  {
    var w := After(cfg, start, steps).hb;
    forall id ensures id !in w.audit.emitted {
      NeverEmittedUnbound(cfg, start, steps, id);
      RunInvariants(cfg, start, steps, id);
      assert !Mixed(w, id);
    }
    HeadIn(w.audit.emitted);
    RunInvariants(cfg, start, steps, "");
  }

  // ---- the emit scan -------------------------------------------------------------------------

  lemma {:induction false} EmitCounts(w: Work, ready: seq<Id>, id: Id)
    requires Emittable(w, ready)
    ensures WriteCount(EmitAll(w, ready), id) == WriteCount(w, id) + if id in ready then 1 else 0
    decreases |ready|
  {
    if ready != [] {
      assert ready[0] in ready && ready[0] !in ready[1..];
      AppendWrite(w.out.writes, EmittedWrite(ready[0], w.pending[ready[0]]));
      EmittableNext(w, ready);
      EmitCounts(EmitOne(w, ready[0]), ready[1..], id);
    }
  }

  /** Once bound, a request whose final chunk has come is written in that very tick, once; no other request is. */
  lemma ScanWritesReady(cfg: Config, w: World, plan: Plan, id: Id)
    requires Enabled(cfg, w, TickStep(plan))
    ensures var v := Process(cfg, Fresh(w.hb), w.Todo(), plan.choices);
            WriteCount(Next(cfg, w, TickStep(plan)).hb, id)
            == WriteCount(v, id) + if id in v.pending && v.pending[id].ReadyToEmit() then 1 else 0
  {
    EmitCounts(Process(cfg, Fresh(w.hb), w.Todo(), plan.choices), plan.ready, id);
  }
}
