/** The pool's list over every run: which sessions it holds, in which order, because of which events. */
module Recency {
  import opened Messages
  import opened Seqs
  import opened Sessions
  import opened HeartbeatModel
  import opened Runs
  import opened Ledger
  import opened Listings
  import opened Journals
  import Evolution

  /** Only a hand-out and a connection move a session to the front; a new one is put there. */
  function ListStep(list: seq<Id>, e: Event): seq<Id> {
    match e
    case TookUpstream(_, s, isNew, _) => if isNew then [s] + list else [s] + Drop(list, {s})
    case Readied(s, _) => if s in list then [s] + Drop(list, {s}) else list
    case Left(s) => Drop(list, {s})
    case _ => list
  }

  /** The listed sessions that are over by the end of the journal. */
  function Over(limits: Limits, j: seq<Event>, list: seq<Id>): set<Id> {
    set x | x in list && SessionAfter(limits, j, x).None?
  }

  /** A pass strikes out the sessions it removes and leaves the others in their order. */
  function ListAfter(limits: Limits, j: seq<Event>): seq<Id> {
    if j == [] then []
    else
      var list, e := ListAfter(limits, j[..|j| - 1]), j[|j| - 1];
      if e.Swept? then Drop(list, Over(limits, j, list)) else ListStep(list, e)
  }

  lemma ListAppended(limits: Limits, j: seq<Event>, e: Event)
    requires !e.Swept?
    ensures ListAfter(limits, j + [e]) == ListStep(ListAfter(limits, j), e)
  {
    assert (j + [e])[..|j|] == j;
  }

  lemma AskList(cfg: Config, w: Work, req: Request, c: Choice)
    ensures HandleAsk(cfg, w, req, c).pool.lru == ListStep(w.pool.lru, AskEvent(cfg, w, req, c))
  {
    LastReadyFound(w.pool, w.pool.lru);
  }

  lemma EventList(w: Work, rsp: Response, c: Choice)
    requires rsp.session in w.pool.lru <==> rsp.session in w.pool.sessions
    ensures HandleEvent(w, rsp, c).pool.lru == ListStep(w.pool.lru, WsEventOf(w.pool, rsp, c))
  {
    match rsp.kind
    case Connected =>
    case Disconnected =>
    case _ =>
  }

  lemma MessageList(cfg: Config, w: Work, m: Message, c: Choice)
    requires w.pool.Listed()
    ensures !Cause(cfg, w, m, c).Swept?
    ensures Handle(cfg, w, m, c).pool.lru == ListStep(w.pool.lru, Cause(cfg, w, m, c))
  {
    var v := w.(audit := w.audit.(clock := c.now));
    match m
    case Ask(req) => AskList(cfg, v, req, c);
    case WsEvent(rsp) => EventList(v, rsp, c);
    case _ =>
  }

  lemma {:induction false} BatchList(cfg: Config, limits: Limits, w: Work, batch: seq<Message>, choices: seq<Choice>,
                                     j: seq<Event>)
    requires |choices| == |batch| && Ageless(w.pool) && w.pool.lru == ListAfter(limits, j)
    ensures Process(cfg, w, batch, choices).pool.lru == ListAfter(limits, j + BatchEvents(cfg, w, batch, choices))
    decreases |batch|
  {
    if batch == [] {
      assert j + [] == j;
    } else {
      var e, v := Cause(cfg, w, batch[0], choices[0]), Handle(cfg, w, batch[0], choices[0]);
      MessageList(cfg, w, batch[0], choices[0]);
      ListAppended(limits, j, e);
      HandleAgeless(cfg, w, batch[0], choices[0]);
      BatchList(cfg, limits, v, batch[1..], choices[1..], j + [e]);
      Associative(j, [e], BatchEvents(cfg, v, batch[1..], choices[1..]));
    }
  }

  lemma {:induction false} ScanList(limits: Limits, w: Work, ready: seq<Id>, j: seq<Event>)
    requires Emittable(w, ready) && w.pool.lru == ListAfter(limits, j)
    ensures EmitAll(w, ready).pool.lru == ListAfter(limits, j + Emissions(w.pending, ready))
    decreases |ready|
  {
    if ready == [] {
      assert j + [] == j;
    } else {
      var e, v := Emitted(ready[0], w.pending[ready[0]]), EmitOne(w, ready[0]);
      EmissionsTail(w, ready);
      ListAppended(limits, j, e);
      ScanList(limits, v, ready[1..], j + [e]);
      Associative(j, [e], Emissions(v.pending, ready[1..]));
    }
  }

  /** The sessions a pass removes are those that end with it in the journal. */
  lemma SweptAway(limits: Limits, p: Pool, changed: set<Id>, now: Time, j: seq<Event>)
    requires p.Listed() && Within(limits, p)
    requires forall id <- p.sessions :: p.sessions[id].state in {Errored, Closed} ==> id in changed
    requires forall x :: Lookup(p.sessions, x) == SessionAfter(limits, j, x)
    ensures Evolution.Removed(p, changed, now) == Over(limits, j + [Swept(now)], p.lru)
  {
    forall x ensures x in Evolution.Removed(p, changed, now) <==>
                       x in p.lru && SessionAfter(limits, j + [Swept(now)], x).None?
    {
      Appended(limits, j, Swept(now), x);
      if x in p.sessions { RuleOutlives(limits, p, changed, now, x); }
    }
  }

  lemma StruckOut(limits: Limits, now: Time, j: seq<Event>)
    ensures var list := ListAfter(limits, j);
            ListAfter(limits, j + [Swept(now)]) == Drop(list, Over(limits, j + [Swept(now)], list))
  {
    assert (j + [Swept(now)])[..|j|] == j;
  }

  lemma SweepList(limits: Limits, w: Work, now: Time, o: Orders, j: seq<Event>)
    requires OrdersFit(w, now, o) && w.pool.Listed() && BrokenNoted(w) && Within(limits, w.pool)
    requires w.pool.lru == ListAfter(limits, j) && AllRecorded(limits, w, j)
    ensures Evolve(w, now, o).pool.lru == ListAfter(limits, j + [Swept(now)])
  {
    forall x ensures Lookup(w.pool.sessions, x) == SessionAfter(limits, j, x) { assert Recorded(limits, w, j, x); }
    SweptAway(limits, w.pool, w.changedSessions, now, j);
    StruckOut(limits, now, j);
    Evolution.EvolvedPool(w.pool, w.changedSessions, now);
  }

  lemma UnevolvedRecorded(cfg: Config, limits: Limits, w: World, plan: Plan, j: seq<Event>, x: Id)
    requires Steady(limits, w) && Enabled(cfg, w, TickStep(plan)) && Recorded(limits, w.hb, j, x)
    ensures var v := Process(cfg, Fresh(w.hb), w.Todo(), plan.choices);
            var batch := BatchEvents(cfg, Fresh(w.hb), w.Todo(), plan.choices);
            Recorded(limits, Unevolved(cfg, w, plan), j + batch + Emissions(v.pending, plan.ready), x)
  {
    var v := Process(cfg, Fresh(w.hb), w.Todo(), plan.choices);
    UnevolvedSteady(cfg, limits, w, plan);
    BatchRecorded(cfg, limits, Fresh(w.hb), w.Todo(), plan.choices, j, x);
    EmitRecorded(limits, v, plan.ready, j + BatchEvents(cfg, Fresh(w.hb), w.Todo(), plan.choices), x);
  }

  lemma TickList(cfg: Config, limits: Limits, w: World, plan: Plan, j: seq<Event>)
    requires Steady(limits, w) && Enabled(cfg, w, TickStep(plan))
    requires w.hb.pool.lru == ListAfter(limits, j) && AllRecorded(limits, w.hb, j)
    ensures Next(cfg, w, TickStep(plan)).hb.pool.lru == ListAfter(limits, j + StepEvents(cfg, w, TickStep(plan)))
  {
    var v := Process(cfg, Fresh(w.hb), w.Todo(), plan.choices);
    var batch, scan := BatchEvents(cfg, Fresh(w.hb), w.Todo(), plan.choices), Emissions(v.pending, plan.ready);
    var u := Unevolved(cfg, w, plan);
    UnevolvedSteady(cfg, limits, w, plan);
    BatchList(cfg, limits, Fresh(w.hb), w.Todo(), plan.choices, j);
    ScanList(limits, v, plan.ready, j + batch);
    forall x ensures Recorded(limits, u, j + batch + scan, x) {
      assert Recorded(limits, w.hb, j, x);
      UnevolvedRecorded(cfg, limits, w, plan, j, x);
    }
    SweepList(limits, u, plan.now, plan.orders, j + batch + scan);
    Associative(j, batch, scan);
    Associative(j, batch + scan, [Swept(plan.now)]);
  }

  lemma OtherList(cfg: Config, limits: Limits, w: World, s: Step, j: seq<Event>)
    requires Enabled(cfg, w, s) && !s.TickStep? && w.hb.pool.lru == ListAfter(limits, j)
    ensures Next(cfg, w, s).hb.pool.lru == ListAfter(limits, j + StepEvents(cfg, w, s))
  {
    if s.Bind? {
      ListAppended(limits, j, Rebound(s.id, s.session));
    } else {
      assert j + [] == j;
    }
  }

  lemma {:induction false} RunList(cfg: Config, limits: Limits, w: World, steps: seq<Step>, j: seq<Event>)
    requires Steady(limits, w) && Legal(cfg, w, steps)
    requires w.hb.pool.lru == ListAfter(limits, j) && AllRecorded(limits, w.hb, j)
    ensures After(cfg, w, steps).hb.pool.lru == ListAfter(limits, j + Journal(cfg, w, steps))
    decreases |steps|
  {
    if steps == [] {
      assert j + [] == j;
    } else {
      var s, next := steps[0], Next(cfg, w, steps[0]);
      var events := StepEvents(cfg, w, s);
      NextSteady(cfg, limits, w, s);
      if s.TickStep? { TickList(cfg, limits, w, s.plan, j); } else { OtherList(cfg, limits, w, s, j); }
      NextAllRecorded(cfg, limits, w, s, j);
      RunList(cfg, limits, next, steps[1..], j + events);
      Associative(j, events, Journal(cfg, next, steps[1..]));
    }
  }

  /** In every run the pool's list is exactly what the events make of it, even if names repeat and clocks go back. */
  lemma {:induction false} EveryListIsRecorded(cfg: Config, start: World, steps: seq<Step>)
    requires AnyRun(cfg, start, steps)
    ensures After(cfg, start, steps).hb.pool.lru == ListAfter(LimitsOf(start), Journal(cfg, start, steps))
  {
    StartSound(start);
    forall x ensures Recorded(LimitsOf(start), start.hb, [], x) {}
    RunList(cfg, LimitsOf(start), start, steps, []);
    assert [] + Journal(cfg, start, steps) == Journal(cfg, start, steps);
  }
}
