/** The order of ready sessions over every run in which clock readings do not go back, whatever the session names. */
module Chronology {
  import opened Messages
  import opened Seqs
  import opened Sessions
  import opened HeartbeatModel
  import opened Runs
  import Naming
  import Listings

  /** Ready sessions stand in order of activity, and none was active after the last reading. */
  ghost predicate Timely(p: Pool, clock: Time) { p.Chronological() && p.ActiveBy(clock) }

  lemma LaterTimely(p: Pool, clock: Time, now: Time)
    requires Timely(p, clock) && clock <= now
    ensures Timely(p, now)
  {
  }

  lemma FrontTimely(p: Pool, clock: Time, id: Id, s: Session)
    requires Timely(p, clock) && clock <= s.lastActiveAt
    ensures Timely(p.Front(id, s), s.lastActiveAt)
  {
    LaterTimely(p, clock, s.lastActiveAt);
    FrontChronological(p, id, s);
  }

  lemma QuietTimely(p: Pool, clock: Time, id: Id, s: Session)
    requires Timely(p, clock) && id in p.sessions
    requires s.state == Ready ==> p.IsReady(id) && s.lastActiveAt == p.sessions[id].lastActiveAt
    ensures Timely(p.(sessions := p.sessions[id := s]), clock)
  {
    QuietChronological(p, id, s, clock);
  }

  lemma AcquireTimely(p: Pool, clock: Time, c: Choice)
    requires Timely(p, clock) && clock <= c.now && Acquire(p, c).Some?
    ensures Timely(Acquire(p, c).value.pool, c.now)
  {
    LaterTimely(p, clock, c.now);
    match LastReady(p, p.lru)
    case Some(idle) =>
      if idle in p.sessions {
        FrontTimely(p, clock, idle, p.sessions[idle].(state := SessionState.Streaming, lastActiveAt := c.now));
      }
    case None => AddChronological(p, SessionName(c.entropy), Session(Connecting, 0, 0, "", ""), c.now);
  }

  lemma AskTimely(cfg: Config, w: Work, req: Request, c: Choice)
    requires Timely(w.pool, w.audit.clock) && w.audit.clock <= c.now
    ensures Timely(Handle(cfg, w, Ask(req), c).pool, c.now)
  {
    LaterTimely(w.pool, w.audit.clock, c.now);
    if Admits(cfg, w.metrics) && !ShouldUseLocal(cfg, req, c.engineReady) && Acquire(w.pool, c).Some? {
      var g := Acquire(w.pool, c).value;
      AcquireTimely(w.pool, w.audit.clock, c);
      if g.session in g.pool.sessions {
        QuietTimely(g.pool, c.now, g.session, g.pool.sessions[g.session].(currentRequest := req.id));
      }
    }
  }

  lemma EventTimely(cfg: Config, w: Work, rsp: Response, c: Choice)
    requires Timely(w.pool, w.audit.clock) && w.audit.clock <= c.now
    ensures Timely(Handle(cfg, w, WsEvent(rsp), c).pool, c.now)
  {
    var p, s := w.pool, rsp.session;
    LaterTimely(p, w.audit.clock, c.now);
    match rsp.kind
    case Connected =>
      if s in p.sessions { FrontTimely(p, w.audit.clock, s, p.sessions[s].(state := Ready, lastActiveAt := c.now)); }
    case TaskFailed =>
      if s in p.sessions { QuietTimely(p, c.now, s, p.sessions[s].(state := Errored, lastError := rsp.statusMsg)); }
    case Disconnected => RemoveChronological(p, {s}, c.now);
    case _ =>
  }

  lemma HandleTimely(cfg: Config, w: Work, m: Message, c: Choice)
    requires Timely(w.pool, w.audit.clock) && w.audit.clock <= c.now
    ensures Timely(Handle(cfg, w, m, c).pool, c.now) && Handle(cfg, w, m, c).audit.clock == c.now
  {
    match m
    case Ask(req) => AskTimely(cfg, w, req, c);
    case WsEvent(rsp) => EventTimely(cfg, w, rsp, c);
    case _ => LaterTimely(w.pool, w.audit.clock, c.now);
  }

  lemma {:induction false} ProcessTimely(cfg: Config, w: Work, batch: seq<Message>, choices: seq<Choice>)
    requires |choices| == |batch| && Timely(w.pool, w.audit.clock) && OnwardBatch(cfg, w, batch, choices)
    ensures var v := Process(cfg, w, batch, choices); Timely(v.pool, v.audit.clock)
    decreases |batch|
  {
    if batch != [] {
      HandleTimely(cfg, w, batch[0], choices[0]);
      ProcessTimely(cfg, Handle(cfg, w, batch[0], choices[0]), batch[1..], choices[1..]);
    }
  }

  lemma {:induction false} EmitAllTimely(w: Work, ready: seq<Id>)
    requires Timely(w.pool, w.audit.clock)
    ensures var v := EmitAll(w, ready); Timely(v.pool, v.audit.clock) && v.audit.clock == w.audit.clock
    decreases |ready|
  {
    if ready != [] {
      if ready[0] in w.pending && w.pending[ready[0]].session in w.pool.sessions {
        var s := w.pending[ready[0]].session;
        QuietTimely(w.pool, w.audit.clock, s, w.pool.sessions[s].(state := Draining));
      }
      EmitAllTimely(EmitOne(w, ready[0]), ready[1..]);
    }
  }

  lemma EvolveTimely(w: Work, now: Time, o: Orders)
    requires Timely(w.pool, w.audit.clock) && w.audit.clock <= now && OrdersFit(w, now, o)
    ensures Timely(Evolve(w, now, o).pool, now)
  {
    var changed := w.changedSessions;
    var p := w.pool.RemoveAll(ErroredSet(w.pool, changed));
    LaterTimely(w.pool, w.audit.clock, now);
    RemoveChronological(w.pool, ErroredSet(w.pool, changed), now);
    RemoveChronological(p, LifetimeSet(p, now), now);
    RemoveChronological(Aged(w.pool, changed, now), SetOf(IdleIds(w.pool, changed, now)), now);
  }

  lemma NextTimely(cfg: Config, w: World, step: Step)
    requires Timely(w.hb.pool, w.hb.audit.clock) && Enabled(cfg, w, step) && Onward(cfg, w, step)
    ensures var v := Next(cfg, w, step).hb; Timely(v.pool, v.audit.clock)
  {
    if step.TickStep? {
      var plan := step.plan;
      var v := Process(cfg, Fresh(w.hb), w.Todo(), plan.choices);
      ProcessTimely(cfg, Fresh(w.hb), w.Todo(), plan.choices);
      EmitAllTimely(v, plan.ready);
      EvolveTimely(EmitAll(v, plan.ready), plan.now, plan.orders);
    }
  }

  lemma {:induction false} RunTimely(cfg: Config, w: World, steps: seq<Step>)
    requires Timely(w.hb.pool, w.hb.audit.clock) && Legal(cfg, w, steps) && OnwardRun(cfg, w, steps)
    ensures var v := After(cfg, w, steps).hb; Timely(v.pool, v.audit.clock)
    decreases |steps|
  {
    if steps != [] {
      NextTimely(cfg, w, steps[0]);
      RunTimely(cfg, Next(cfg, w, steps[0]), steps[1..]);
    }
  }

  // ---- the theorems --------------------------------------------------------------------------

  /** A run of the service from its empty board in which clock readings do not go back. */
  ghost predicate ClockedRun(cfg: Config, start: World, steps: seq<Step>) {
    && start == Start(start.hb.pool.maxSize, start.hb.pool.idleTimeout, start.hb.pool.maxLifetime)
    && Legal(cfg, start, steps) && OnwardRun(cfg, start, steps)
  }

  /** The list refines the timestamps: ready sessions in list order have falling activity times. */
  lemma {:induction false} ReadyInOrder(cfg: Config, start: World, steps: seq<Step>)
    requires ClockedRun(cfg, start, steps)
    ensures var w := After(cfg, start, steps).hb; w.pool.Chronological() && w.pool.ActiveBy(w.audit.clock)
  {
    RunTimely(cfg, start, steps);
  }

  /** With new names and a clock that does not go back, the pool has its whole invariant. */
  lemma {:induction false} PoolStaysHealthy(cfg: Config, start: World, steps: seq<Step>)
    requires Naming.AllNamedRun(cfg, start, steps) && ClockedRun(cfg, start, steps)
    ensures var w := After(cfg, start, steps).hb; Healthy(w.pool, w.audit.clock)
  {
    Naming.PoolStaysConsistent(cfg, start, steps);
    ReadyInOrder(cfg, start, steps);
  }

  // ---- reuse ---------------------------------------------------------------------------------

  lemma {:induction false} OnwardPrefix(cfg: Config, w: Work, batch: seq<Message>, choices: seq<Choice>, k: nat)
    requires |choices| == |batch| && k <= |batch| && OnwardBatch(cfg, w, batch, choices)
    ensures OnwardBatch(cfg, w, batch[..k], choices[..k])
    decreases k
  {
    if k > 0 {
      OnwardPrefix(cfg, Handle(cfg, w, batch[0], choices[0]), batch[1..], choices[1..], k - 1);
      assert batch[..k][1..] == batch[1..][..k - 1] && choices[..k][1..] == choices[1..][..k - 1];
    }
  }

  /** A ready session of least activity time is reused, and another session is used only when none is ready. */
  ghost predicate ReusesOldest(p: Pool, handed: Option<Grant>) {
    if handed.Some? && handed.value.reused
    then p.IsReady(handed.value.session)
         && forall x :: p.IsReady(x) ==> p.sessions[handed.value.session].lastActiveAt <= p.sessions[x].lastActiveAt
    else forall x :: !p.IsReady(x)
  }

  lemma AcquireReusesOldest(p: Pool, c: Choice)
    requires p.Listed() && p.Chronological()
    ensures ReusesOldest(p, Acquire(p, c))
  {
    LeastRecentlyUsed(p);
  }

  /**
   * In every run whose clock does not go back, whatever the names: at any message of any tick, the session that an
   * upstream request would be handed is a ready one that has been inactive longest, if any is ready.
   */
  lemma {:induction false} EveryReuseIsOldest(cfg: Config, start: World, steps: seq<Step>, w: World, plan: Plan, k: nat,
                                              v: Work)
    requires ClockedRun(cfg, start, steps) && w == After(cfg, start, steps)
    requires Enabled(cfg, w, TickStep(plan)) && Onward(cfg, w, TickStep(plan)) && k < |w.Todo()|
    requires v == Process(cfg, Fresh(w.hb), w.Todo()[..k], plan.choices[..k])
    ensures ReusesOldest(v.pool, Acquire(v.pool, plan.choices[k]))
  {
    RunTimely(cfg, start, steps);
    OnwardPrefix(cfg, Fresh(w.hb), w.Todo(), plan.choices, k);
    ProcessTimely(cfg, Fresh(w.hb), w.Todo()[..k], plan.choices[..k]);
    Listings.RunAgeless(cfg, start, steps);
    Listings.ProcessAgeless(cfg, Fresh(w.hb), w.Todo()[..k], plan.choices[..k]);
    AcquireReusesOldest(v.pool, plan.choices[k]);
  }
}
