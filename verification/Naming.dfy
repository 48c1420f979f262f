/** The pool over every run in which all generated session names are new, whatever the clock readings. */
module Naming {
  import opened Messages
  import opened Seqs
  import opened Sessions
  import opened HeartbeatModel
  import opened Runs

  /** The pool is consistent and holds only sessions that were handed out. */
  ghost predicate Named(p: Pool, lease: seq<Lease>) {
    p.Consistent() && forall id <- p.sessions :: HandOut(id) in lease
  }

  lemma NamedLater(p: Pool, lease: seq<Lease>, e: Lease)
    requires Named(p, lease)
    ensures Named(p, lease + [e])
  {
  }

  lemma AcquireNamed(p: Pool, lease: seq<Lease>, c: Choice)
    requires Named(p, lease) && HandOut(SessionName(c.entropy)) !in lease && Acquire(p, c).Some?
    ensures var g := Acquire(p, c).value;
            g.pool.Consistent() && g.session in g.pool.sessions && g.pool.sessions.Keys <= p.sessions.Keys + {g.session}
  {
    LastReadyFound(p, p.lru);
    match LastReady(p, p.lru)
    case Some(idle) =>
      FrontConsistent(p, idle, p.sessions[idle].(state := SessionState.Streaming, lastActiveAt := c.now));
    case None => AddConsistent(p, SessionName(c.entropy), Session(Connecting, 0, 0, "", ""));
  }

  lemma BoundNamed(p: Pool, lease: seq<Lease>, g: Grant, rid: Id)
    requires Named(p, lease) && g.pool.Consistent() && g.session in g.pool.sessions
    requires g.pool.sessions.Keys <= p.sessions.Keys + {g.session}
    ensures Named(g.pool.SetCurrent(g.session, rid), lease + [HandOut(g.session)])
  {
    QuietConsistent(g.pool, g.session, g.pool.sessions[g.session].(currentRequest := rid));
    assert (lease + [HandOut(g.session)])[|lease|] == HandOut(g.session);
  }

  lemma AskNamed(cfg: Config, w: Work, req: Request, c: Choice)
    requires Named(w.pool, w.audit.lease) && HandOut(SessionName(c.entropy)) !in w.audit.lease
    ensures var v := Handle(cfg, w, Ask(req), c); Named(v.pool, v.audit.lease)
  {
    if Admits(cfg, w.metrics) && !ShouldUseLocal(cfg, req, c.engineReady) && Acquire(w.pool, c).Some? {
      AcquireNamed(w.pool, w.audit.lease, c);
      BoundNamed(w.pool, w.audit.lease, Acquire(w.pool, c).value, req.id);
    }
  }

  lemma EventNamed(cfg: Config, w: Work, rsp: Response, c: Choice)
    requires Named(w.pool, w.audit.lease)
    ensures var v := Handle(cfg, w, WsEvent(rsp), c); Named(v.pool, v.audit.lease)
  {
    var p, s := w.pool, rsp.session;
    match rsp.kind
    case Connected =>
      if s in p.sessions { FrontConsistent(p, s, p.sessions[s].(state := Ready, lastActiveAt := c.now)); }
      NamedLater(p.MarkReady(s, c.now), w.audit.lease, Reconnect(s));
    case TaskFailed =>
      if s in p.sessions { QuietConsistent(p, s, p.sessions[s].(state := Errored, lastError := rsp.statusMsg)); }
    case Disconnected => RemoveConsistent(p, {s});
    case _ =>
  }

  lemma HandleNamed(cfg: Config, w: Work, m: Message, c: Choice)
    requires Named(w.pool, w.audit.lease) && HandOut(SessionName(c.entropy)) !in w.audit.lease
    ensures var v := Handle(cfg, w, m, c); Named(v.pool, v.audit.lease)
  {
    match m
    case Ask(req) => AskNamed(cfg, w, req, c);
    case WsEvent(rsp) => EventNamed(cfg, w, rsp, c);
    case _ =>
  }

  lemma {:induction false} ProcessNamed(cfg: Config, w: Work, batch: seq<Message>, choices: seq<Choice>)
    requires |choices| == |batch| && Named(w.pool, w.audit.lease) && forall s :: NewNameBatch(cfg, w, batch, choices, s)
    ensures var v := Process(cfg, w, batch, choices); Named(v.pool, v.audit.lease)
    decreases |batch|
  {
    if batch != [] {
      var v := Handle(cfg, w, batch[0], choices[0]);
      assert NewNameBatch(cfg, w, batch, choices, SessionName(choices[0].entropy));
      HandleNamed(cfg, w, batch[0], choices[0]);
      forall s ensures NewNameBatch(cfg, v, batch[1..], choices[1..], s) {
        assert NewNameBatch(cfg, w, batch, choices, s);
      }
      ProcessNamed(cfg, v, batch[1..], choices[1..]);
    }
  }

  lemma {:induction false} EmitAllNamed(w: Work, ready: seq<Id>)
    requires Named(w.pool, w.audit.lease)
    ensures var v := EmitAll(w, ready); Named(v.pool, v.audit.lease)
    decreases |ready|
  {
    if ready != [] {
      if ready[0] in w.pending && w.pending[ready[0]].session in w.pool.sessions {
        var s := w.pending[ready[0]].session;
        QuietConsistent(w.pool, s, w.pool.sessions[s].(state := Draining));
      }
      EmitAllNamed(EmitOne(w, ready[0]), ready[1..]);
    }
  }

  lemma RemoveNamed(p: Pool, lease: seq<Lease>, gone: set<Id>)
    requires Named(p, lease)
    ensures Named(p.RemoveAll(gone), lease)
  {
    RemoveConsistent(p, gone);
  }

  lemma EvolveNamed(w: Work, now: Time, o: Orders)
    requires Named(w.pool, w.audit.lease) && OrdersFit(w, now, o)
    ensures var v := Evolve(w, now, o); Named(v.pool, v.audit.lease)
  {
    var changed := w.changedSessions;
    var p := w.pool.RemoveAll(ErroredSet(w.pool, changed));
    RemoveNamed(w.pool, w.audit.lease, ErroredSet(w.pool, changed));
    RemoveNamed(p, w.audit.lease, LifetimeSet(p, now));
    RemoveNamed(Aged(w.pool, changed, now), w.audit.lease, SetOf(IdleIds(w.pool, changed, now)));
  }

  lemma UnevolvedNamed(cfg: Config, w: World, plan: Plan)
    requires Named(w.hb.pool, w.hb.audit.lease) && Enabled(cfg, w, TickStep(plan))
    requires forall s :: NewName(cfg, w, TickStep(plan), s)
    ensures var u := Unevolved(cfg, w, plan); Named(u.pool, u.audit.lease)
  {
    forall s ensures NewNameBatch(cfg, Fresh(w.hb), w.Todo(), plan.choices, s) {
      assert NewName(cfg, w, TickStep(plan), s);
    }
    ProcessNamed(cfg, Fresh(w.hb), w.Todo(), plan.choices);
    EmitAllNamed(Process(cfg, Fresh(w.hb), w.Todo(), plan.choices), plan.ready);
  }

  lemma NextNamed(cfg: Config, w: World, step: Step)
    requires Named(w.hb.pool, w.hb.audit.lease) && Enabled(cfg, w, step) && forall s :: NewName(cfg, w, step, s)
    ensures var v := Next(cfg, w, step).hb; Named(v.pool, v.audit.lease)
  {
    if step.TickStep? {
      UnevolvedNamed(cfg, w, step.plan);
      EvolveNamed(Unevolved(cfg, w, step.plan), step.plan.now, step.plan.orders);
    }
  }

  lemma {:induction false} RunNamed(cfg: Config, w: World, steps: seq<Step>)
    requires Named(w.hb.pool, w.hb.audit.lease) && Legal(cfg, w, steps) && NewNamesRun(cfg, w, steps)
    ensures var v := After(cfg, w, steps).hb; Named(v.pool, v.audit.lease)
    decreases |steps|
  {
    if steps != [] {
      var v := Next(cfg, w, steps[0]);
      forall s ensures NewName(cfg, w, steps[0], s) && NewNameRun(cfg, v, steps[1..], s) {
        assert NewNameRun(cfg, w, steps, s);
      }
      NextNamed(cfg, w, steps[0]);
      RunNamed(cfg, v, steps[1..]);
    }
  }

  /** A run of the service from its empty board in which every generated session name is new. */
  ghost predicate AllNamedRun(cfg: Config, start: World, steps: seq<Step>) {
    && start == Start(start.hb.pool.maxSize, start.hb.pool.idleTimeout, start.hb.pool.maxLifetime)
    && Legal(cfg, start, steps) && NewNamesRun(cfg, start, steps)
  }

  /** The list is a duplicate-free permutation of the map's keys and never too long. */
  lemma {:induction false} PoolStaysConsistent(cfg: Config, start: World, steps: seq<Step>)
    requires AllNamedRun(cfg, start, steps)
    ensures After(cfg, start, steps).hb.pool.Consistent()
  {
    RunNamed(cfg, start, steps);
  }

  /** So is the pool that an evolution pass begins with, and it holds only sessions that were handed out. */
  lemma {:induction false} ConsistentBeforeEvolution(cfg: Config, start: World, steps: seq<Step>, w: World, plan: Plan)
    requires AllNamedRun(cfg, start, steps) && w == After(cfg, start, steps) && Enabled(cfg, w, TickStep(plan))
    requires forall s :: NewName(cfg, w, TickStep(plan), s)
    ensures var u := Unevolved(cfg, w, plan); Named(u.pool, u.audit.lease)
  {
    RunNamed(cfg, start, steps);
    UnevolvedNamed(cfg, w, plan);
  }
}
