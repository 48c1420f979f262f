/** A service whose counter stands at the watermark, with nothing left that could lower it, has stopped. */
module Shutdown {
  import opened Messages
  import opened Seqs
  import opened Pendings
  import opened HeartbeatModel
  import opened Runs
  import opened Ledger

  /** Nothing is admitted and nothing pending can be emitted. */
  ghost predicate Shut(cfg: Config, w: Work) {
    w.metrics.inflight >= cfg.highWatermark && forall id <- w.pending :: w.pending[id].state != PendingState.Streaming
  }

  /** No job, frame, write or binding separates the two, and the counter stands as it stood. */
  ghost predicate Frozen(w: Work, v: Work) {
    && v.out.jobs == w.out.jobs && v.out.frames == w.out.frames && v.out.writes == w.out.writes
    && v.metrics.inflight == w.metrics.inflight && v.audit.bound == w.audit.bound
    && v.pending.Keys <= w.pending.Keys
  }

  lemma EventShut(w: Work, rsp: Response, c: Choice)
    requires forall id <- w.pending :: w.pending[id].state != PendingState.Streaming
    ensures var v := HandleEvent(w, rsp, c);
            v.pending.Keys == w.pending.Keys && forall id <- v.pending :: v.pending[id].state != PendingState.Streaming
  {
    var v := HandleEvent(w, rsp, c);
    assert forall id <- v.pending ::
        id in w.pending && v.pending[id].state in {w.pending[id].state, PendingState.Failed};
  }

  lemma HandleShut(cfg: Config, w: Work, m: Message, c: Choice)
    requires Shut(cfg, w) && !m.IsDone()
    ensures Shut(cfg, Handle(cfg, w, m, c)) && Frozen(w, Handle(cfg, w, m, c))
  {
    if m.WsEvent? {
      var v := w.(audit := w.audit.(clock := c.now));
      EventsAreQuiet(v, m.rsp, c);
      EventShut(v, m.rsp, c);
    }
  }

  lemma {:induction false} ProcessShut(cfg: Config, w: Work, batch: seq<Message>, choices: seq<Choice>)
    requires |choices| == |batch| && Shut(cfg, w) && forall m <- batch :: !m.IsDone()
    ensures Shut(cfg, Process(cfg, w, batch, choices)) && Frozen(w, Process(cfg, w, batch, choices))
    decreases |batch|
  {
    if batch != [] {
      assert batch[0] in batch;
      HandleShut(cfg, w, batch[0], choices[0]);
      ProcessShut(cfg, Handle(cfg, w, batch[0], choices[0]), batch[1..], choices[1..]);
    }
  }

  lemma ShutScan(cfg: Config, w: Work, ready: seq<Id>)
    requires Shut(cfg, w) && Enumerates(ready, ReadySet(w.pending))
    ensures ready == []
  {
    HeadIn(ready);
  }

  ghost predicate ShutDown(cfg: Config, w: World) {
    Shut(cfg, w.hb) && |w.results| == |w.hb.out.jobs| && forall m <- w.Todo() :: !m.IsDone()
  }

  lemma TickShut(cfg: Config, w: World, plan: Plan)
    requires Shut(cfg, w.hb) && (forall m <- w.Todo() :: !m.IsDone()) && Enabled(cfg, w, TickStep(plan))
    ensures Shut(cfg, Next(cfg, w, TickStep(plan)).hb) && Frozen(w.hb, Next(cfg, w, TickStep(plan)).hb)
    ensures plan.ready == []
  {
    ProcessShut(cfg, Fresh(w.hb), w.Todo(), plan.choices);
    ShutScan(cfg, Process(cfg, Fresh(w.hb), w.Todo(), plan.choices), plan.ready);
  }

  lemma NextShut(cfg: Config, w: World, s: Step)
    requires ShutDown(cfg, w) && Enabled(cfg, w, s) && EngineReports(s) && (s.Bind? ==> s.id !in w.hb.pending)
    ensures ShutDown(cfg, Next(cfg, w, s)) && Frozen(w.hb, Next(cfg, w, s).hb)
  {
    if s.TickStep? { TickShut(cfg, w, s.plan); }
  }

  /**
   * With no report to come, nothing streaming and the counter at the high watermark or above, no continuation adds a
   * job, a frame or a write; binding steps do not matter when nothing is pending.
   */
  lemma {:induction false} StaysShut(cfg: Config, w: World, steps: seq<Step>)
    requires ShutDown(cfg, w) && Legal(cfg, w, steps) && forall s <- steps :: EngineReports(s)
    requires w.hb.pending == map[] || forall s <- steps :: !s.Bind?
    ensures ShutDown(cfg, After(cfg, w, steps)) && Frozen(w.hb, After(cfg, w, steps).hb)
    decreases |steps|
  {
    if steps != [] {
      assert steps[0] in steps;
      NextShut(cfg, w, steps[0]);
      StaysShut(cfg, Next(cfg, w, steps[0]), steps[1..]);
    }
  }
}
