/** List and map of the pool over every run, whatever the clock readings and the session names. */
module Listings {
  import opened Messages
  import opened Seqs
  import opened Sessions
  import opened HeartbeatModel
  import opened Runs
  import opened Ledger

  /** List and map agree, ready sessions are listed once, and nothing ever set a creation time. */
  ghost predicate Ageless(p: Pool) {
    p.Listed() && forall id <- p.sessions :: p.sessions[id].createdAt == 0
  }

  lemma AcquireAgeless(p: Pool, c: Choice)
    requires Ageless(p) && Acquire(p, c).Some?
    ensures Ageless(Acquire(p, c).value.pool) && Acquire(p, c).value.session in Acquire(p, c).value.pool.sessions
  {
    LastReadyFound(p, p.lru);
    match LastReady(p, p.lru)
    case Some(idle) => FrontListed(p, idle, p.sessions[idle].(state := SessionState.Streaming, lastActiveAt := c.now));
    case None => AddListed(p, SessionName(c.entropy), Session(Connecting, 0, 0, "", ""));
  }

  lemma AskAgeless(cfg: Config, w: Work, req: Request, c: Choice)
    requires Ageless(w.pool)
    ensures Ageless(Handle(cfg, w, Ask(req), c).pool)
  {
    if Admits(cfg, w.metrics) && !ShouldUseLocal(cfg, req, c.engineReady) && Acquire(w.pool, c).Some? {
      var g := Acquire(w.pool, c).value;
      AcquireAgeless(w.pool, c);
      QuietListed(g.pool, g.session, g.pool.sessions[g.session].(currentRequest := req.id));
    }
  }

  lemma EventAgeless(cfg: Config, w: Work, rsp: Response, c: Choice)
    requires Ageless(w.pool)
    ensures Ageless(Handle(cfg, w, WsEvent(rsp), c).pool)
  {
    var p, s := w.pool, rsp.session;
    match rsp.kind
    case Connected =>
      if s in p.sessions { FrontListed(p, s, p.sessions[s].(state := Ready, lastActiveAt := c.now)); }
    case TaskFailed =>
      if s in p.sessions { QuietListed(p, s, p.sessions[s].(state := Errored, lastError := rsp.statusMsg)); }
    case Disconnected => RemoveListed(p, {s});
    case _ =>
  }

  lemma HandleAgeless(cfg: Config, w: Work, m: Message, c: Choice)
    requires Ageless(w.pool)
    ensures Ageless(Handle(cfg, w, m, c).pool)
  {
    match m
    case Ask(req) => AskAgeless(cfg, w, req, c);
    case WsEvent(rsp) => EventAgeless(cfg, w, rsp, c);
    case _ =>
  }

  lemma {:induction false} ProcessAgeless(cfg: Config, w: Work, batch: seq<Message>, choices: seq<Choice>)
    requires |choices| == |batch| && Ageless(w.pool)
    ensures Ageless(Process(cfg, w, batch, choices).pool)
    decreases |batch|
  {
    if batch != [] {
      HandleAgeless(cfg, w, batch[0], choices[0]);
      ProcessAgeless(cfg, Handle(cfg, w, batch[0], choices[0]), batch[1..], choices[1..]);
    }
  }

  lemma {:induction false} EmitAllAgeless(w: Work, ready: seq<Id>)
    requires Ageless(w.pool)
    ensures Ageless(EmitAll(w, ready).pool)
    decreases |ready|
  {
    if ready != [] {
      if ready[0] in w.pending && w.pending[ready[0]].session in w.pool.sessions {
        var s := w.pending[ready[0]].session;
        QuietListed(w.pool, s, w.pool.sessions[s].(state := Draining));
      }
      EmitAllAgeless(EmitOne(w, ready[0]), ready[1..]);
    }
  }

  lemma RemoveAgeless(p: Pool, gone: set<Id>)
    requires Ageless(p)
    ensures Ageless(p.RemoveAll(gone))
  {
    RemoveListed(p, gone);
  }

  lemma EvolveAgeless(w: Work, now: Time, o: Orders)
    requires Ageless(w.pool) && OrdersFit(w, now, o)
    ensures Ageless(Evolve(w, now, o).pool)
  {
    var changed := w.changedSessions;
    var p := w.pool.RemoveAll(ErroredSet(w.pool, changed));
    RemoveAgeless(w.pool, ErroredSet(w.pool, changed));
    RemoveAgeless(p, LifetimeSet(p, now));
    RemoveAgeless(Aged(w.pool, changed, now), SetOf(IdleIds(w.pool, changed, now)));
  }

  lemma UnevolvedAgeless(cfg: Config, w: World, plan: Plan)
    requires Ageless(w.hb.pool) && Enabled(cfg, w, TickStep(plan))
    ensures Ageless(Unevolved(cfg, w, plan).pool)
  {
    ProcessAgeless(cfg, Fresh(w.hb), w.Todo(), plan.choices);
    EmitAllAgeless(Process(cfg, Fresh(w.hb), w.Todo(), plan.choices), plan.ready);
  }

  lemma NextAgeless(cfg: Config, w: World, s: Step)
    requires Ageless(w.hb.pool) && Enabled(cfg, w, s)
    ensures Ageless(Next(cfg, w, s).hb.pool)
  {
    if s.TickStep? {
      UnevolvedAgeless(cfg, w, s.plan);
      EvolveAgeless(Unevolved(cfg, w, s.plan), s.plan.now, s.plan.orders);
    }
  }

  lemma {:induction false} RunAgeless(cfg: Config, w: World, steps: seq<Step>)
    requires Ageless(w.hb.pool) && Legal(cfg, w, steps)
    ensures Ageless(After(cfg, w, steps).hb.pool)
    decreases |steps|
  {
    if steps != [] {
      NextAgeless(cfg, w, steps[0]);
      RunAgeless(cfg, Next(cfg, w, steps[0]), steps[1..]);
    }
  }

  /** In every run, even if session names repeat, list and map agree and a ready session is listed once. */
  lemma {:induction false} PoolStaysListed(cfg: Config, start: World, steps: seq<Step>)
    requires AnyRun(cfg, start, steps)
    ensures Ageless(After(cfg, start, steps).hb.pool)
  {
    RunAgeless(cfg, start, steps);
  }

  /** So it is when an evolution pass begins. */
  lemma {:induction false} ListedBeforeEvolution(cfg: Config, start: World, steps: seq<Step>, w: World, plan: Plan)
    requires AnyRun(cfg, start, steps) && w == After(cfg, start, steps) && Enabled(cfg, w, TickStep(plan))
    ensures Ageless(Unevolved(cfg, w, plan).pool)
  {
    PoolStaysListed(cfg, start, steps);
    UnevolvedAgeless(cfg, w, plan);
  }
}
