/** A session over every run in which its own name is generated only once, whatever other names and the clock do. */
module Leases {
  import opened Messages
  import opened Seqs
  import opened Sessions
  import opened HeartbeatModel
  import opened Runs

  /** The last thing recorded about the session is that it was handed out. */
  ghost predicate Leased(lease: seq<Lease>, s: Id) {
    lease != [] &&
    var last := lease[|lease| - 1];
    last == HandOut(s) || (last != Reconnect(s) && Leased(lease[..|lease| - 1], s))
  }

  /** The session is handed out only when it is not already leased. */
  ghost predicate Alternating(lease: seq<Lease>, s: Id) {
    lease != [] ==>
      var earlier, last := lease[..|lease| - 1], lease[|lease| - 1];
      Alternating(earlier, s) && (last == HandOut(s) ==> !Leased(earlier, s))
  }

  function Ops(frames: seq<Frame>, s: Id): seq<Op> {
    if frames == [] then []
    else Ops(frames[..|frames| - 1], s) + if frames[|frames| - 1].session == s then [frames[|frames| - 1].op] else []
  }

  /** One TaskStart, then one or more TaskContinue. */
  ghost predicate Grammatical(ops: seq<Op>) {
    |ops| >= 2 && ops[0] == TaskStart && forall i :: 0 < i < |ops| ==> ops[i] == TaskContinue
  }

  /** The session is pooled only if it was handed out, and is not ready while on lease. */
  ghost predicate Tidy(p: Pool, lease: seq<Lease>, s: Id) {
    && p.Listed()
    && (s in p.sessions ==> HandOut(s) in lease)
    && (p.IsReady(s) ==> !Leased(lease, s))
    && Alternating(lease, s)
  }

  /** The frames of a session follow the grammar from its first hand-out on. */
  ghost predicate WellFramed(frames: seq<Frame>, lease: seq<Lease>, s: Id) {
    if HandOut(s) in lease then Grammatical(Ops(frames, s)) else Ops(frames, s) == []
  }

  ghost predicate Proper(w: Work, s: Id) {
    Tidy(w.pool, w.audit.lease, s) && WellFramed(w.out.frames, w.audit.lease, s)
  }

  lemma LeaseNext(lease: seq<Lease>, e: Lease, s: Id)
    ensures Leased(lease + [e], s) <==> e == HandOut(s) || (e != Reconnect(s) && Leased(lease, s))
    ensures Alternating(lease + [e], s) <==> Alternating(lease, s) && (e == HandOut(s) ==> !Leased(lease, s))
    ensures HandOut(s) in lease + [e] <==> e == HandOut(s) || HandOut(s) in lease
  {
    assert (lease + [e])[..|lease|] == lease;
  }

  lemma OpsNext(frames: seq<Frame>, f: Frame, s: Id)
    ensures Ops(frames + [f], s) == Ops(frames, s) + if f.session == s then [f.op] else []
  {
    assert (frames + [f])[..|frames|] == frames;
  }

  lemma {:induction false} NeverHandedOut(lease: seq<Lease>, s: Id)
    requires HandOut(s) !in lease
    ensures !Leased(lease, s)
  {
    if lease != [] { NeverHandedOut(lease[..|lease| - 1], s); }
  }

  /** What is known of a hand-out: if it is this session, it was not on lease and is new or was handed out before. */
  ghost predicate GoodGrant(p: Pool, lease: seq<Lease>, g: Grant, s: Id) {
    && g.pool.Listed() && g.session in g.pool.sessions && !g.pool.IsReady(g.session)
    && (s in g.pool.sessions ==> s == g.session || s in p.sessions)
    && (g.pool.IsReady(s) ==> p.IsReady(s))
    && (g.session == s ==> !Leased(lease, s) && (g.reused <==> HandOut(s) in lease))
  }

  lemma ReuseTidy(p: Pool, lease: seq<Lease>, idle: Id, now: Time, s: Id)
    requires Tidy(p, lease, s) && p.IsReady(idle)
    ensures GoodGrant(p, lease, Grant(p.MarkActive(idle, now), idle, true), s)
  {
    FrontListed(p, idle, p.sessions[idle].(state := SessionState.Streaming, lastActiveAt := now));
  }

  lemma CreateTidy(p: Pool, lease: seq<Lease>, name: Id, s: Id)
    requires Tidy(p, lease, s) && !p.Full() && (name == s ==> HandOut(s) !in lease)
    ensures GoodGrant(p, lease, Grant(p.Add(name, Session(Connecting, 0, 0, "", "")), name, false), s)
  {
    AddListed(p, name, Session(Connecting, 0, 0, "", ""));
    if name == s { NeverHandedOut(lease, s); }
  }

  lemma AcquireTidy(p: Pool, lease: seq<Lease>, c: Choice, s: Id)
    requires Tidy(p, lease, s) && (SessionName(c.entropy) == s ==> HandOut(s) !in lease) && Acquire(p, c).Some?
    ensures GoodGrant(p, lease, Acquire(p, c).value, s)
  {
    LastReadyFound(p, p.lru);
    match LastReady(p, p.lru)
    case Some(idle) => ReuseTidy(p, lease, idle, c.now, s);
    case None => CreateTidy(p, lease, SessionName(c.entropy), s);
  }

  lemma BoundTidy(p: Pool, lease: seq<Lease>, g: Grant, rid: Id, s: Id)
    requires Tidy(p, lease, s) && GoodGrant(p, lease, g, s)
    ensures Tidy(g.pool.SetCurrent(g.session, rid), lease + [HandOut(g.session)], s)
  {
    QuietListed(g.pool, g.session, g.pool.sessions[g.session].(currentRequest := rid));
    LeaseNext(lease, HandOut(g.session), s);
  }

  lemma ContinueFramed(frames: seq<Frame>, lease: seq<Lease>, cont: Frame, s: Id)
    requires WellFramed(frames, lease, s) && cont.op == TaskContinue && HandOut(cont.session) in lease
    ensures WellFramed(frames + [cont], lease + [HandOut(cont.session)], s)
  {
    LeaseNext(lease, HandOut(cont.session), s);
    OpsNext(frames, cont, s);
  }

  lemma StartFramed(frames: seq<Frame>, lease: seq<Lease>, start: Frame, cont: Frame, s: Id)
    requires WellFramed(frames, lease, s) && HandOut(start.session) !in lease
    requires start.session == cont.session && start.op == TaskStart && cont.op == TaskContinue
    ensures WellFramed(frames + [start] + [cont], lease + [HandOut(start.session)], s)
  {
    LeaseNext(lease, HandOut(start.session), s);
    OpsNext(frames, start, s);
    OpsNext(frames + [start], cont, s);
  }

  lemma OtherFramed(frames: seq<Frame>, lease: seq<Lease>, start: Frame, cont: Frame, s: Id)
    requires WellFramed(frames, lease, s) && start.session == cont.session != s
    ensures WellFramed(frames + [cont], lease + [HandOut(start.session)], s)
    ensures WellFramed(frames + [start] + [cont], lease + [HandOut(start.session)], s)
  {
    LeaseNext(lease, HandOut(start.session), s);
    OpsNext(frames, cont, s);
    OpsNext(frames, start, s);
    OpsNext(frames + [start], cont, s);
  }

  lemma BoundFramed(frames: seq<Frame>, lease: seq<Lease>, start: Frame, cont: Frame, reused: bool, s: Id)
    requires WellFramed(frames, lease, s)
    requires start.session == cont.session && start.op == TaskStart && cont.op == TaskContinue
    requires start.session == s ==> (reused <==> HandOut(s) in lease)
    ensures WellFramed(frames + (if reused then [] else [start]) + [cont], lease + [HandOut(start.session)], s)
  {
    assert frames + [] == frames;
    if start.session != s {
      OtherFramed(frames, lease, start, cont, s);
    } else if reused {
      ContinueFramed(frames, lease, cont, s);
    } else {
      StartFramed(frames, lease, start, cont, s);
    }
  }

  lemma AskProper(cfg: Config, w: Work, req: Request, c: Choice, s: Id)
    requires Proper(w, s) && (SessionName(c.entropy) == s ==> HandOut(s) !in w.audit.lease)
    ensures Proper(Handle(cfg, w, Ask(req), c), s)
  {
    if Admits(cfg, w.metrics) && !ShouldUseLocal(cfg, req, c.engineReady) && Acquire(w.pool, c).Some? {
      var g := Acquire(w.pool, c).value;
      AcquireTidy(w.pool, w.audit.lease, c, s);
      BoundTidy(w.pool, w.audit.lease, g, req.id, s);
      BoundFramed(w.out.frames, w.audit.lease, StartFrame(g.session, req), ContinueFrame(g.session, req), g.reused, s);
    }
  }

  lemma ReadyTidy(p: Pool, lease: seq<Lease>, t: Id, now: Time, s: Id)
    requires Tidy(p, lease, s)
    ensures Tidy(p.MarkReady(t, now), lease + [Reconnect(t)], s)
  {
    if t in p.sessions { FrontListed(p, t, p.sessions[t].(state := Ready, lastActiveAt := now)); }
    LeaseNext(lease, Reconnect(t), s);
  }

  lemma ReadyFramed(frames: seq<Frame>, lease: seq<Lease>, t: Id, s: Id)
    requires WellFramed(frames, lease, s)
    ensures WellFramed(frames, lease + [Reconnect(t)], s)
  {
    LeaseNext(lease, Reconnect(t), s);
  }

  lemma QuietTidy(p: Pool, lease: seq<Lease>, t: Id, r: Session, s: Id)
    requires Tidy(p, lease, s) && t in p.sessions && r.state != Ready
    ensures Tidy(p.(sessions := p.sessions[t := r]), lease, s)
  {
    QuietListed(p, t, r);
  }

  lemma RemoveTidy(p: Pool, lease: seq<Lease>, gone: set<Id>, s: Id)
    requires Tidy(p, lease, s)
    ensures Tidy(p.RemoveAll(gone), lease, s)
  {
    RemoveListed(p, gone);
  }

  lemma EventProper(cfg: Config, w: Work, rsp: Response, c: Choice, s: Id)
    requires Proper(w, s)
    ensures Proper(Handle(cfg, w, WsEvent(rsp), c), s)
  {
    var p, lease, t := w.pool, w.audit.lease, rsp.session;
    match rsp.kind
    case Connected =>
      ReadyTidy(p, lease, t, c.now, s);
      ReadyFramed(w.out.frames, lease, t, s);
    case TaskFailed =>
      if t in p.sessions {
        QuietTidy(p, lease, t, p.sessions[t].(state := Errored, lastError := rsp.statusMsg), s);
      }
    case Disconnected => RemoveTidy(p, lease, {t}, s);
    case _ =>
  }

  lemma HandleProper(cfg: Config, w: Work, m: Message, c: Choice, s: Id)
    requires Proper(w, s) && (SessionName(c.entropy) == s ==> HandOut(s) !in w.audit.lease)
    ensures Proper(Handle(cfg, w, m, c), s)
  {
    match m
    case Ask(req) => AskProper(cfg, w, req, c, s);
    case WsEvent(rsp) => EventProper(cfg, w, rsp, c, s);
    case _ =>
  }

  lemma {:induction false} ProcessProper(cfg: Config, w: Work, batch: seq<Message>, choices: seq<Choice>, s: Id)
    requires |choices| == |batch| && Proper(w, s) && NewNameBatch(cfg, w, batch, choices, s)
    ensures Proper(Process(cfg, w, batch, choices), s)
    decreases |batch|
  {
    if batch != [] {
      HandleProper(cfg, w, batch[0], choices[0], s);
      ProcessProper(cfg, Handle(cfg, w, batch[0], choices[0]), batch[1..], choices[1..], s);
    }
  }

  lemma EmitProper(w: Work, id: Id, s: Id)
    requires Proper(w, s)
    ensures Proper(EmitOne(w, id), s)
  {
    if id in w.pending && w.pending[id].session in w.pool.sessions {
      var t := w.pending[id].session;
      QuietTidy(w.pool, w.audit.lease, t, w.pool.sessions[t].(state := Draining), s);
    }
  }

  lemma {:induction false} EmitAllProper(w: Work, ready: seq<Id>, s: Id)
    requires Proper(w, s)
    ensures Proper(EmitAll(w, ready), s)
    decreases |ready|
  {
    if ready != [] {
      EmitProper(w, ready[0], s);
      EmitAllProper(EmitOne(w, ready[0]), ready[1..], s);
    }
  }

  lemma EvolveProper(w: Work, now: Time, o: Orders, s: Id)
    requires Proper(w, s) && OrdersFit(w, now, o)
    ensures Proper(Evolve(w, now, o), s)
  {
    var changed := w.changedSessions;
    var p := w.pool.RemoveAll(ErroredSet(w.pool, changed));
    RemoveTidy(w.pool, w.audit.lease, ErroredSet(w.pool, changed), s);
    RemoveTidy(p, w.audit.lease, LifetimeSet(p, now), s);
    RemoveTidy(Aged(w.pool, changed, now), w.audit.lease, SetOf(IdleIds(w.pool, changed, now)), s);
  }

  lemma NextProper(cfg: Config, w: World, step: Step, s: Id)
    requires Proper(w.hb, s) && Enabled(cfg, w, step) && NewName(cfg, w, step, s)
    ensures Proper(Next(cfg, w, step).hb, s)
  {
    if step.TickStep? {
      var plan := step.plan;
      var v := Process(cfg, Fresh(w.hb), w.Todo(), plan.choices);
      ProcessProper(cfg, Fresh(w.hb), w.Todo(), plan.choices, s);
      EmitAllProper(v, plan.ready, s);
      EvolveProper(EmitAll(v, plan.ready), plan.now, plan.orders, s);
    }
  }

  lemma {:induction false} RunProper(cfg: Config, w: World, steps: seq<Step>, s: Id)
    requires Proper(w.hb, s) && Legal(cfg, w, steps) && NewNameRun(cfg, w, steps, s)
    ensures Proper(After(cfg, w, steps).hb, s)
    decreases |steps|
  {
    if steps != [] {
      NextProper(cfg, w, steps[0], s);
      RunProper(cfg, Next(cfg, w, steps[0]), steps[1..], s);
    }
  }

  // ---- the theorems --------------------------------------------------------------------------

  /** A run of the service from its empty board in which the session's name is generated only once. */
  ghost predicate NamedRun(cfg: Config, start: World, steps: seq<Step>, s: Id) {
    && start == Start(start.hb.pool.maxSize, start.hb.pool.idleTimeout, start.hb.pool.maxLifetime)
    && Legal(cfg, start, steps) && NewNameRun(cfg, start, steps, s)
  }

  /** Frame grammar: the frames of a session are none, or one TaskStart and then one or more TaskContinue. */
  lemma {:induction false} FrameGrammar(cfg: Config, start: World, steps: seq<Step>, s: Id)
    requires NamedRun(cfg, start, steps, s)
    ensures var ops := Ops(After(cfg, start, steps).hb.out.frames, s); ops == [] || Grammatical(ops)
  {
    RunProper(cfg, start, steps, s);
  }

  ghost predicate ReconnectedBetween(lease: seq<Lease>, i: nat, j: nat, s: Id) {
    exists k :: i < k < j && k < |lease| && lease[k] == Reconnect(s)
  }

  lemma {:induction false} LeaseEnded(lease: seq<Lease>, i: nat, s: Id)
    requires i < |lease| && lease[i] == HandOut(s) && !Leased(lease, s)
    ensures ReconnectedBetween(lease, i, |lease|, s)
  {
    var n := |lease| - 1;
    if lease[n] != Reconnect(s) {
      LeaseEnded(lease[..n], i, s);
      Longer(lease, n, i, n, s);
    }
  }

  lemma {:induction false} HandOutsSeparated(lease: seq<Lease>, i: nat, j: nat, s: Id)
    requires Alternating(lease, s) && i < j < |lease| && lease[i] == lease[j] == HandOut(s)
    ensures ReconnectedBetween(lease, i, j, s)
  {
    var n := |lease| - 1;
    if j == n { LeaseEnded(lease[..n], i, s); } else { HandOutsSeparated(lease[..n], i, j, s); }
    Longer(lease, n, i, j, s);
  }

  lemma Longer(lease: seq<Lease>, n: nat, i: nat, j: nat, s: Id)
    requires n <= |lease| && ReconnectedBetween(lease[..n], i, j, s)
    ensures ReconnectedBetween(lease, i, j, s) && ReconnectedBetween(lease, i, |lease|, s)
  {
    var k :| i < k < j && k < n && lease[..n][k] == Reconnect(s);
    assert lease[k] == Reconnect(s);
  }

  /** Session lease: between two hand-outs of a session the session has connected again. */
  lemma {:induction false} SessionLease(cfg: Config, start: World, steps: seq<Step>, i: nat, j: nat, s: Id)
    requires NamedRun(cfg, start, steps, s)
    requires var lease := After(cfg, start, steps).hb.audit.lease; i < j < |lease| && lease[i] == lease[j] == HandOut(s)
    ensures ReconnectedBetween(After(cfg, start, steps).hb.audit.lease, i, j, s)
  {
    RunProper(cfg, start, steps, s);
    HandOutsSeparated(After(cfg, start, steps).hb.audit.lease, i, j, s);
  }
}
