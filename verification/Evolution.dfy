/** One evolution pass against the rule it is meant to implement. */
module Evolution {
  import opened Messages
  import opened Seqs
  import opened Sessions
  import opened Pendings
  import opened HeartbeatModel
  import opened Runs
  import opened Ledger
  import opened Listings

  predicate Broken(p: Pool, changed: set<Id>, id: Id)
    requires id in p.sessions
  { id in changed && p.sessions[id].state in {Errored, Closed} }

  /** The rule: a session stays unless it is changed and broken, too old, or idle for too long. */
  predicate Survives(p: Pool, changed: set<Id>, now: Time, id: Id)
    requires id in p.sessions
  {
    !Broken(p, changed, id) && !p.LifetimeExpired(id, now) && !p.IdleExpired(id, now)
  }

  function Reason(p: Pool, changed: set<Id>, now: Time, id: Id): CloseReason
    requires id in p.sessions
  {
    if Broken(p, changed, id) then EvolveSessionClosed
    else if p.LifetimeExpired(id, now) then LifetimeExceeded
    else IdleTimedOut
  }

  function Removed(p: Pool, changed: set<Id>, now: Time): set<Id> {
    set id | id in p.sessions && !Survives(p, changed, now, id)
  }

  lemma BrokenMeaning(p: Pool, changed: set<Id>)
    ensures forall id :: id in ErroredSet(p, changed) <==> id in p.sessions && Broken(p, changed, id)
  {
  }

  lemma LifetimeMeaning(p: Pool, changed: set<Id>, now: Time)
    ensures forall id :: id in LifetimeSet(p.RemoveAll(ErroredSet(p, changed)), now) <==>
              id in p.sessions && !Broken(p, changed, id) && p.LifetimeExpired(id, now)
  {
  }

  lemma AgedSessions(p: Pool, changed: set<Id>, now: Time)
    ensures forall id :: id in Aged(p, changed, now).sessions <==>
              id in p.sessions && !Broken(p, changed, id) && !p.LifetimeExpired(id, now)
    ensures forall id <- Aged(p, changed, now).sessions :: Aged(p, changed, now).sessions[id] == p.sessions[id]
  {
  }

  lemma AgedListed(p: Pool, changed: set<Id>, now: Time)
    requires p.Listed()
    ensures Aged(p, changed, now).Listed()
  {
    var q := p.RemoveAll(ErroredSet(p, changed));
    RemoveListed(p, ErroredSet(p, changed));
    RemoveListed(q, LifetimeSet(q, now));
  }

  lemma IdleMeaning(p: Pool, changed: set<Id>, now: Time)
    requires p.Listed()
    ensures Distinct(IdleIds(p, changed, now))
    ensures forall id :: id in IdleIds(p, changed, now) <==>
              id in p.sessions && !Broken(p, changed, id) && !p.LifetimeExpired(id, now) && p.IdleExpired(id, now)
  {
    AgedListed(p, changed, now);
    var q := Aged(p, changed, now);
    IdleFromBackSound(q, q.lru, now);
    AgedSessions(p, changed, now);
  }

  lemma RemovedParts(p: Pool, changed: set<Id>, now: Time, e: set<Id>, l: set<Id>, idle: seq<Id>)
    requires forall id :: id in e <==> id in p.sessions && Broken(p, changed, id)
    requires forall id :: id in l <==> id in p.sessions && !Broken(p, changed, id) && p.LifetimeExpired(id, now)
    requires forall id :: id in idle <==>
               id in p.sessions && !Broken(p, changed, id) && !p.LifetimeExpired(id, now) && p.IdleExpired(id, now)
    ensures e + l + SetOf(idle) == Removed(p, changed, now)
  {
  }

  /** The three removals in a row are one removal of everything the rule does not keep. */
  lemma EvolvedPool(p: Pool, changed: set<Id>, now: Time)
    requires p.Listed()
    ensures Aged(p, changed, now).RemoveAll(SetOf(IdleIds(p, changed, now))) == p.RemoveAll(Removed(p, changed, now))
  {
    var e := ErroredSet(p, changed);
    var l := LifetimeSet(p.RemoveAll(e), now);
    var idle := IdleIds(p, changed, now);
    RemoveTwice(p, e, l);
    RemoveTwice(p, e + l, SetOf(idle));
    BrokenMeaning(p, changed);
    LifetimeMeaning(p, changed, now);
    IdleMeaning(p, changed, now);
    RemovedParts(p, changed, now, e, l, idle);
  }

  /** What the rule leaves of the sessions and the requests, with their records and their order. */
  ghost predicate Settled(w: Work, now: Time, v: Work) {
    var p, changed := w.pool, w.changedSessions;
    && v.pool.sessions == (map id | id in p.sessions && Survives(p, changed, now, id) :: p.sessions[id])
    && v.pool.lru == Drop(p.lru, Removed(p, changed, now))
    && v.pending == (map id | id in w.pending && !w.pending[id].Terminal() :: w.pending[id])
  }

  /** Survivors are exactly those the rule keeps, with their records and their order in the list; so are requests. */
  lemma EvolveFollowsRule(w: Work, now: Time, o: Orders)
    requires w.pool.Listed() && OrdersFit(w, now, o)
    ensures Settled(w, now, Evolve(w, now, o))
  {
    EvolvedPool(w.pool, w.changedSessions, now);
    KeptSessions(w.pool, w.changedSessions, now);
    KeptRequests(w.pending);
  }

  lemma KeptSessions(p: Pool, changed: set<Id>, now: Time)
    ensures p.sessions - Removed(p, changed, now)
            == (map id | id in p.sessions && Survives(p, changed, now, id) :: p.sessions[id])
  {
  }

  lemma KeptRequests(store: Store)
    ensures store - TerminalSet(store) == (map id | id in store && !store[id].Terminal() :: store[id])
  {
  }

  function ClosedIds(w: Work, now: Time, o: Orders): seq<Id> {
    o.errored + o.lifetime + IdleIds(w.pool, w.changedSessions, now)
  }

  /**
   * The notices are one for each removed session, with the first reason that applies, and then one for the session of
   * each removed request.
   */
  ghost predicate Announced(w: Work, now: Time, o: Orders, closes: seq<Close>)
    requires OrdersFit(w, now, o)
  {
    var ids := ClosedIds(w, now, o);
    && Enumerates(ids, Removed(w.pool, w.changedSessions, now))
    && |closes| == |ids| + |o.terminal|
    && (forall k :: 0 <= k < |ids| ==>
          && ids[k] in w.pool.sessions
          && closes[k] == Close(ids[k], Reason(w.pool, w.changedSessions, now, ids[k])))
    && (forall k :: 0 <= k < |o.terminal| ==>
          && o.terminal[k] in w.pending
          && closes[|ids| + k] == Close(w.pending[o.terminal[k]].session, RequestFailedOrCancelled))
  }

  lemma SessionNotices(w: Work, now: Time, o: Orders)
    requires w.pool.Listed() && OrdersFit(w, now, o)
    ensures Announced(w, now, o, Closes(w, now, o))
  {
    PhasesDisjoint(w.pool, w.changedSessions, now, o);
    PhaseNotices(w.pool, w.changedSessions, now, o);
    var idle := IdleIds(w.pool, w.changedSessions, now);
    AnnouncedTogether(w, now, o, Notices(o.errored, EvolveSessionClosed) + Notices(o.lifetime, LifetimeExceeded)
                                 + Notices(idle, IdleTimedOut));
  }

  lemma AnnouncedTogether(w: Work, now: Time, o: Orders, notices: seq<Close>)
    requires OrdersFit(w, now, o) && Enumerates(ClosedIds(w, now, o), Removed(w.pool, w.changedSessions, now))
    requires Labelled(w.pool, w.changedSessions, now, ClosedIds(w, now, o), notices)
    ensures Announced(w, now, o, notices + TerminalNotices(w.pending, o.terminal))
  {
    var ids, others := ClosedIds(w, now, o), TerminalNotices(w.pending, o.terminal);
    forall k | 0 <= k < |o.terminal|
      ensures (notices + others)[|ids| + k] == Close(w.pending[o.terminal[k]].session, RequestFailedOrCancelled)
    {
      assert (notices + others)[|ids| + k] == others[k] && o.terminal[k] in o.terminal;
    }
  }

  ghost predicate Labelled(p: Pool, changed: set<Id>, now: Time, ids: seq<Id>, notices: seq<Close>) {
    |notices| == |ids| && forall k :: 0 <= k < |ids| ==>
      ids[k] in p.sessions && notices[k] == Close(ids[k], Reason(p, changed, now, ids[k]))
  }

  lemma LabelledJoin(p: Pool, changed: set<Id>, now: Time, a: seq<Id>, m: seq<Close>, b: seq<Id>, n: seq<Close>)
    requires Labelled(p, changed, now, a, m) && Labelled(p, changed, now, b, n)
    ensures Labelled(p, changed, now, a + b, m + n)
  {
  }

  lemma LabelledPhase(p: Pool, changed: set<Id>, now: Time, ids: seq<Id>, reason: CloseReason)
    requires forall id <- ids :: id in p.sessions && Reason(p, changed, now, id) == reason
    ensures Labelled(p, changed, now, ids, Notices(ids, reason))
  {
  }

  lemma PhaseNotices(p: Pool, changed: set<Id>, now: Time, o: Orders)
    requires p.Listed() && SessionOrdersFit(p, changed, now, o)
    ensures var idle := IdleIds(p, changed, now);
            Labelled(p, changed, now, o.errored + o.lifetime + idle,
                     Notices(o.errored, EvolveSessionClosed) + Notices(o.lifetime, LifetimeExceeded)
                     + Notices(idle, IdleTimedOut))
  {
    var idle := IdleIds(p, changed, now);
    PhasesApart(p, changed, now, o);
    LabelledPhase(p, changed, now, o.errored, EvolveSessionClosed);
    LabelledPhase(p, changed, now, o.lifetime, LifetimeExceeded);
    LabelledPhase(p, changed, now, idle, IdleTimedOut);
    LabelledJoin(p, changed, now, o.errored, Notices(o.errored, EvolveSessionClosed),
                 o.lifetime, Notices(o.lifetime, LifetimeExceeded));
    LabelledJoin(p, changed, now, o.errored + o.lifetime,
                 Notices(o.errored, EvolveSessionClosed) + Notices(o.lifetime, LifetimeExceeded),
                 idle, Notices(idle, IdleTimedOut));
  }

  ghost predicate SessionOrdersFit(p: Pool, changed: set<Id>, now: Time, o: Orders) {
    Enumerates(o.errored, ErroredSet(p, changed))
    && Enumerates(o.lifetime, LifetimeSet(p.RemoveAll(ErroredSet(p, changed)), now))
  }

  lemma PhasesApart(p: Pool, changed: set<Id>, now: Time, o: Orders)
    requires p.Listed() && SessionOrdersFit(p, changed, now, o)
    ensures forall id :: id in o.errored <==> id in p.sessions && Broken(p, changed, id)
    ensures forall id :: id in o.lifetime <==> id in p.sessions && !Broken(p, changed, id) && p.LifetimeExpired(id, now)
    ensures forall id :: id in IdleIds(p, changed, now) <==>
              id in p.sessions && !Broken(p, changed, id) && !p.LifetimeExpired(id, now) && p.IdleExpired(id, now)
    ensures Distinct(o.errored) && Distinct(o.lifetime) && Distinct(IdleIds(p, changed, now))
  {
    BrokenMeaning(p, changed);
    LifetimeMeaning(p, changed, now);
    IdleMeaning(p, changed, now);
  }

  lemma PhasesDisjoint(p: Pool, changed: set<Id>, now: Time, o: Orders)
    requires p.Listed() && SessionOrdersFit(p, changed, now, o)
    ensures Enumerates(o.errored + o.lifetime + IdleIds(p, changed, now), Removed(p, changed, now))
  {
    PhasesApart(p, changed, now, o);
    JoinDistinct(o.errored, o.lifetime);
    JoinDistinct(o.errored + o.lifetime, IdleIds(p, changed, now));
  }

  lemma JoinDistinct(a: seq<Id>, b: seq<Id>)
    requires Distinct(a) && Distinct(b) && forall x <- a :: x !in b
    ensures Distinct(a + b)
  {
    forall i, j | 0 <= i < j < |a + b| ensures (a + b)[i] != (a + b)[j] {
      if i < |a| <= j { assert a[i] in a && b[j - |a|] in b; }
    }
  }

  /** One pass is enough: a second pass with the same inputs at the same time finds nothing and changes nothing. */
  lemma EvolveOnceIsEnough(w: Work, now: Time, o: Orders, again: Orders)
    requires w.pool.Listed() && OrdersFit(w, now, o) && OrdersFit(Evolve(w, now, o), now, again)
    ensures var v := Evolve(w, now, o); Closes(v, now, again) == [] && Evolve(v, now, again) == v
  {
    SettledPool(w.pool, w.changedSessions, now);
    KeptRequests(w.pending);
    NothingLeft(Evolve(w, now, o), now, again);
  }

  /** After the pass list and map agree and the rule removes nothing more. */
  lemma SettledPool(p: Pool, changed: set<Id>, now: Time)
    requires p.Listed()
    ensures var q := Aged(p, changed, now).RemoveAll(SetOf(IdleIds(p, changed, now)));
            q.Listed() && Removed(q, changed, now) == {}
  {
    EvolvedPool(p, changed, now);
    RemoveListed(p, Removed(p, changed, now));
    NoneToRemove(p, p.RemoveAll(Removed(p, changed, now)), changed, now);
  }

  lemma NoneToRemove(p: Pool, q: Pool, changed: set<Id>, now: Time)
    requires q.sessions == p.sessions - Removed(p, changed, now)
    requires q.idleTimeout == p.idleTimeout && q.maxLifetime == p.maxLifetime
    ensures Removed(q, changed, now) == {}
  {
    assert forall id <- q.sessions :: Survives(p, changed, now, id) && q.sessions[id] == p.sessions[id];
  }

  lemma NothingLeft(w: Work, now: Time, o: Orders)
    requires w.pool.Listed() && OrdersFit(w, now, o)
    requires Removed(w.pool, w.changedSessions, now) == {} && TerminalSet(w.pending) == {}
    ensures Closes(w, now, o) == [] && Evolve(w, now, o) == w.(audit := w.audit.(clock := now))
  {
    NoNotices(w, now, o);
    SamePool(w.pool, w.changedSessions, now);
    NothingChanges(w, now, o);
  }

  lemma NothingChanges(w: Work, now: Time, o: Orders)
    requires o.terminal == [] && TerminalSet(w.pending) == {} && Closes(w, now, o) == []
    requires Aged(w.pool, w.changedSessions, now).RemoveAll(SetOf(IdleIds(w.pool, w.changedSessions, now))) == w.pool
    ensures Evolve(w, now, o) == w.(audit := w.audit.(clock := now))
  {
    assert w.pending - {} == w.pending;
    assert w.out.closes + [] == w.out.closes;
  }

  lemma SamePool(p: Pool, changed: set<Id>, now: Time)
    requires p.Listed() && Removed(p, changed, now) == {}
    ensures Aged(p, changed, now).RemoveAll(SetOf(IdleIds(p, changed, now))) == p
  {
    EvolvedPool(p, changed, now);
    RemoveNothing(p);
  }

  lemma NoNotices(w: Work, now: Time, o: Orders)
    requires w.pool.Listed() && OrdersFit(w, now, o)
    requires Removed(w.pool, w.changedSessions, now) == {} && TerminalSet(w.pending) == {}
    ensures Closes(w, now, o) == [] && o.terminal == []
  {
    PhasesDisjoint(w.pool, w.changedSessions, now, o);
    HeadIn(ClosedIds(w, now, o));
    HeadIn(o.terminal);
    assert |Closes(w, now, o)| == |ClosedIds(w, now, o)| + |o.terminal|;
  }

  /** In every tick of every run the pass leaves what the rule keeps of the board and announces the rest. */
  lemma EveryTickFollowsRule(cfg: Config, start: World, steps: seq<Step>, w: World, plan: Plan)
    requires AnyRun(cfg, start, steps) && w == After(cfg, start, steps) && Enabled(cfg, w, TickStep(plan))
    ensures var u, v := Unevolved(cfg, w, plan), Next(cfg, w, TickStep(plan)).hb;
            && Settled(u, plan.now, v)
            && w.hb.out.closes <= v.out.closes
            && Announced(u, plan.now, plan.orders, v.out.closes[|w.hb.out.closes|..])
  {
    var u := Unevolved(cfg, w, plan);
    ListedBeforeEvolution(cfg, start, steps, w, plan);
    EvolveFollowsRule(u, plan.now, plan.orders);
    SessionNotices(u, plan.now, plan.orders);
    TickCloses(cfg, w, plan);
  }

  /** The notices of a tick are those of its pass. */
  lemma TickCloses(cfg: Config, w: World, plan: Plan)
    requires Enabled(cfg, w, TickStep(plan))
    ensures Next(cfg, w, TickStep(plan)).hb.out.closes
            == w.hb.out.closes + Closes(Unevolved(cfg, w, plan), plan.now, plan.orders)
  {
    ProcessKeeps(cfg, Fresh(w.hb), w.Todo(), plan.choices);
    EmitAllKeeps(Process(cfg, Fresh(w.hb), w.Todo(), plan.choices), plan.ready);
  }

  // ---- the lifetime sweep --------------------------------------------------------------------

  /** A session gets a notice with a reason of its own exactly when the rule removes it for that reason. */
  lemma NoticeMeans(w: Work, now: Time, o: Orders, id: Id, reason: CloseReason)
    requires w.pool.Listed() && OrdersFit(w, now, o) && id in w.pool.sessions && reason != RequestFailedOrCancelled
    ensures Close(id, reason) in Closes(w, now, o) <==>
              !Survives(w.pool, w.changedSessions, now, id) && Reason(w.pool, w.changedSessions, now, id) == reason
  {
    SessionNotices(w, now, o);
    var ids, closes := ClosedIds(w, now, o), Closes(w, now, o);
    forall j | |ids| <= j < |closes| ensures closes[j].reason == RequestFailedOrCancelled {
      var m := j - |ids|;
      assert closes[|ids| + m].reason == RequestFailedOrCancelled;
    }
    NoticeAmong(w.pool, w.changedSessions, now, ids, closes, id, reason);
  }

  lemma NoticeAmong(p: Pool, changed: set<Id>, now: Time, ids: seq<Id>, closes: seq<Close>, id: Id,
                    reason: CloseReason)
    requires Enumerates(ids, Removed(p, changed, now)) && |closes| >= |ids| && id in p.sessions
    requires forall k :: 0 <= k < |ids| ==>
               ids[k] in p.sessions && closes[k] == Close(ids[k], Reason(p, changed, now, ids[k]))
    requires forall k :: |ids| <= k < |closes| ==> closes[k].reason == RequestFailedOrCancelled
    requires reason != RequestFailedOrCancelled
    ensures Close(id, reason) in closes <==>
              !Survives(p, changed, now, id) && Reason(p, changed, now, id) == reason
  {
    if Close(id, reason) in closes {
      var k :| 0 <= k < |closes| && closes[k] == Close(id, reason);
      assert ids[k] in ids;
    } else if id in ids {
      var k :| 0 <= k < |ids| && ids[k] == id;
      assert closes[k] in closes;
    }
  }

  /** An unbroken session is closed for its age exactly when its lifetime has expired. */
  lemma LifetimeNotice(w: Work, now: Time, o: Orders, id: Id)
    requires w.pool.Listed() && OrdersFit(w, now, o)
    requires id in w.pool.sessions && !Broken(w.pool, w.changedSessions, id)
    ensures Close(id, LifetimeExceeded) in Closes(w, now, o) <==> w.pool.LifetimeExpired(id, now)
  {
    NoticeMeans(w, now, o, id, LifetimeExceeded);
  }

  ghost predicate SameLimits(p: Pool, q: Pool) {
    p.maxSize == q.maxSize && p.idleTimeout == q.idleTimeout && p.maxLifetime == q.maxLifetime
  }

  lemma HandleKeeps(cfg: Config, w: Work, m: Message, c: Choice)
    ensures SameLimits(Handle(cfg, w, m, c).pool, w.pool) && Handle(cfg, w, m, c).out.closes == w.out.closes
  {
  }

  lemma {:induction false} ProcessKeeps(cfg: Config, w: Work, batch: seq<Message>, choices: seq<Choice>)
    requires |choices| == |batch|
    ensures var v := Process(cfg, w, batch, choices); SameLimits(v.pool, w.pool) && v.out.closes == w.out.closes
    decreases |batch|
  {
    if batch != [] {
      HandleKeeps(cfg, w, batch[0], choices[0]);
      ProcessKeeps(cfg, Handle(cfg, w, batch[0], choices[0]), batch[1..], choices[1..]);
    }
  }

  lemma {:induction false} EmitAllKeeps(w: Work, ready: seq<Id>)
    ensures SameLimits(EmitAll(w, ready).pool, w.pool) && EmitAll(w, ready).out.closes == w.out.closes
    decreases |ready|
  {
    if ready != [] { EmitAllKeeps(EmitOne(w, ready[0]), ready[1..]); }
  }

  lemma UnevolvedKeeps(cfg: Config, w: World, plan: Plan)
    requires Enabled(cfg, w, TickStep(plan))
    ensures SameLimits(Unevolved(cfg, w, plan).pool, w.hb.pool)
  {
    ProcessKeeps(cfg, Fresh(w.hb), w.Todo(), plan.choices);
    EmitAllKeeps(Process(cfg, Fresh(w.hb), w.Todo(), plan.choices), plan.ready);
  }

  lemma NextKeeps(cfg: Config, w: World, s: Step)
    requires Enabled(cfg, w, s)
    ensures SameLimits(Next(cfg, w, s).hb.pool, w.hb.pool)
  {
    if s.TickStep? { UnevolvedKeeps(cfg, w, s.plan); }
  }

  lemma {:induction false} RunKeeps(cfg: Config, w: World, steps: seq<Step>)
    requires Legal(cfg, w, steps)
    ensures SameLimits(After(cfg, w, steps).hb.pool, w.hb.pool)
    decreases |steps|
  {
    if steps != [] {
      NextKeeps(cfg, w, steps[0]);
      RunKeeps(cfg, Next(cfg, w, steps[0]), steps[1..]);
    }
  }

  /**
   * The heartbeat never sets a session's creation time, so an unbroken session, however new, is closed for its age by a
   * tick exactly when that tick's clock has reached the maximum lifetime; and then the tick empties the pool.
   */
  lemma LifetimeSweep(cfg: Config, start: World, steps: seq<Step>, w: World, plan: Plan, id: Id)
    requires AnyRun(cfg, start, steps) && w == After(cfg, start, steps) && Enabled(cfg, w, TickStep(plan))
    ensures var u := Unevolved(cfg, w, plan);
            var notices := Closes(u, plan.now, plan.orders);
            && Next(cfg, w, TickStep(plan)).hb.out.closes == w.hb.out.closes + notices
            && (id in u.pool.sessions && !Broken(u.pool, u.changedSessions, id) ==>
                  (Close(id, LifetimeExceeded) in notices <==> plan.now >= start.hb.pool.maxLifetime))
    ensures plan.now >= start.hb.pool.maxLifetime ==> Next(cfg, w, TickStep(plan)).hb.pool.sessions == map[]
  {
    var u := Unevolved(cfg, w, plan);
    ListedBeforeEvolution(cfg, start, steps, w, plan);
    TickCloses(cfg, w, plan);
    RunKeeps(cfg, start, steps);
    UnevolvedKeeps(cfg, w, plan);
    if id in u.pool.sessions && !Broken(u.pool, u.changedSessions, id) { LifetimeNotice(u, plan.now, plan.orders, id); }
    if plan.now >= start.hb.pool.maxLifetime { NoneYoung(u.pool, u.changedSessions, plan.now); }
  }

  lemma NoneYoung(p: Pool, changed: set<Id>, now: Time)
    requires forall id <- p.sessions :: p.LifetimeExpired(id, now)
    ensures Aged(p, changed, now).RemoveAll(SetOf(IdleIds(p, changed, now))).sessions == map[]
  {
    assert forall id <- Aged(p, changed, now).sessions :: false;
  }

  // ---- the idle sweep ------------------------------------------------------------------------

  /** An unbroken session that is not too old is closed for idleness exactly when it has been idle for too long. */
  lemma IdleNotice(w: Work, now: Time, o: Orders, id: Id)
    requires w.pool.Listed() && OrdersFit(w, now, o) && id in w.pool.sessions
    requires !Broken(w.pool, w.changedSessions, id) && !w.pool.LifetimeExpired(id, now)
    ensures Close(id, IdleTimedOut) in Closes(w, now, o) <==>
              w.pool.sessions[id].state == Ready && now - w.pool.sessions[id].lastActiveAt >= w.pool.idleTimeout
  {
    NoticeMeans(w, now, o, id, IdleTimedOut);
  }

  /**
   * In every tick of every run, a session that is not broken and whose lifetime has not run out is closed for idleness
   * exactly when it is ready and its last activity lies at least the configured idle timeout back.
   */
  lemma IdleSweep(cfg: Config, start: World, steps: seq<Step>, w: World, plan: Plan, id: Id)
    requires AnyRun(cfg, start, steps) && w == After(cfg, start, steps) && Enabled(cfg, w, TickStep(plan))
    requires plan.now < start.hb.pool.maxLifetime
    ensures var s := Unevolved(cfg, w, plan).pool.sessions;
            var notices := Closes(Unevolved(cfg, w, plan), plan.now, plan.orders);
            && Next(cfg, w, TickStep(plan)).hb.out.closes == w.hb.out.closes + notices
            && (id in s && s[id].state !in {Errored, Closed} ==>
                  (Close(id, IdleTimedOut) in notices <==>
                     s[id].state == Ready && plan.now - s[id].lastActiveAt >= start.hb.pool.idleTimeout))
  {
    var u := Unevolved(cfg, w, plan);
    ListedBeforeEvolution(cfg, start, steps, w, plan);
    TickCloses(cfg, w, plan);
    RunKeeps(cfg, start, steps);
    UnevolvedKeeps(cfg, w, plan);
    if id in u.pool.sessions && u.pool.sessions[id].state !in {Errored, Closed} {
      IdleNotice(u, plan.now, plan.orders, id);
    }
  }
}
