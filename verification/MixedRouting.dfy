/** Why the delivery and load theorems ask that no id is routed both ways: a run in which one is. */
module MixedRouting {
  import opened Messages
  import opened Seqs
  import opened Sessions
  import opened Pendings
  import opened HeartbeatModel
  import opened Runs
  import opened Delivery
  import opened Ledger
  import opened Failures
  import opened Shutdown
  import Evolution
  import HexCodec

  /** An upstream and a local request under one id, what the engine makes of the local one, and a clock that stands. */
  datatype Scenario = Scenario(up: Request, near: Request, result: Synthesis, now: Time)

  function Calm(now: Time): Choice { Choice(now, "", true) }

  const NO_ORDERS := Orders([], [], [])
  const NAME: Id := SessionName("")

  ghost predicate Fits(k: Scenario, cfg: Config, start: World) {
    && k.up.id == k.near.id != "" && k.up.backend == Upstream && k.near.backend == Local && k.result.statusCode == 0
    && cfg.hasEngine && cfg.highWatermark > 0 && cfg.queueHighWatermark > 0
    && start == Start(start.hb.pool.maxSize, start.hb.pool.idleTimeout, start.hb.pool.maxLifetime)
    && start.hb.pool.maxSize > 0 && k.now < start.hb.pool.maxLifetime
  }

  function FinalChunk(): Message { WsEvent(Response(NAME, AudioChunk, "", true, 0, 0, "")) }

  function CalmTick(now: Time, messages: nat, ready: seq<Id>): Step {
    TickStep(Plan(seq(messages, _ => Calm(now)), ready, now, NO_ORDERS))
  }

  /** When the rule removes nothing, an evolution pass with nothing to enumerate only moves the clock. */
  lemma QuietEvolve(w: Work, now: Time)
    requires w.pool.Listed() && Evolution.Removed(w.pool, w.changedSessions, now) == {}
             && TerminalSet(w.pending) == {}
    ensures OrdersFit(w, now, NO_ORDERS) && Evolve(w, now, NO_ORDERS) == w.(audit := w.audit.(clock := now))
  {
    Evolution.BrokenMeaning(w.pool, w.changedSessions);
    Evolution.LifetimeMeaning(w.pool, w.changedSessions, now);
    assert forall id <- w.pool.sessions :: id !in Evolution.Removed(w.pool, w.changedSessions, now);
    Evolution.NothingLeft(w, now, NO_ORDERS);
  }

  /** One session that is neither broken nor ready, young enough to stay. */
  ghost predicate OneSession(now: Time, p: Pool, s: Session) {
    p.sessions == map[NAME := s] && p.lru == [NAME] && p.maxSize > 0 && now < p.maxLifetime
    && s.createdAt == 0 && s.state in {Connecting, Draining}
  }

  lemma OneSessionStays(now: Time, p: Pool, s: Session, changed: set<Id>)
    requires OneSession(now, p, s)
    ensures p.Listed() && Evolution.Removed(p, changed, now) == {}
  {
  }

  /** The board and the outputs as far as the scenario is concerned. */
  ghost predicate At(now: Time, w: Work, s: Session, pending: Store, inflight: nat, jobs: seq<Id>, writes: seq<Id>) {
    && OneSession(now, w.pool, s) && w.pending == pending && w.metrics.inflight == inflight && w.metrics.queued == 0
    && JobIds(w.out.jobs) == jobs && WriteIds(w.out.writes) == writes
  }

  // ---- the handlers in the scenario ----------------------------------------------------------

  const FIRST := Session(Connecting, 0, 0, "", "")

  lemma AskedUpstream(k: Scenario, cfg: Config, start: World)
    requires Fits(k, cfg, start)
    ensures At(k.now, Handle(cfg, start.hb, Ask(k.up), Calm(k.now)), FIRST.(currentRequest := k.up.id),
               map[k.up.id := UpstreamPending(k.up, NAME)], 1, [], [])
  {
    FirstGrant(start.hb.pool, k.now);
    var g := start.hb.pool.(sessions := map[NAME := FIRST], lru := [NAME]);
    var w := start.hb.(metrics := Evaluated(cfg, start.hb.metrics), audit := start.hb.audit.(clock := k.now),
                       pool := g);
    assert Handle(cfg, start.hb, Ask(k.up), Calm(k.now)) == Bound(w, k.up, NAME, false);
    BoundFirst(k, w);
  }

  lemma BoundFirst(k: Scenario, w: Work)
    requires At(k.now, w, FIRST, map[], 0, [], [])
    ensures At(k.now, Bound(w, k.up, NAME, false), FIRST.(currentRequest := k.up.id),
               map[k.up.id := UpstreamPending(k.up, NAME)], 1, [], [])
  {
    assert w.pool.SetCurrent(NAME, k.up.id).sessions == map[NAME := FIRST.(currentRequest := k.up.id)];
  }

  lemma FirstGrant(p: Pool, now: Time)
    requires p.sessions == map[] && p.lru == [] && p.maxSize > 0
    ensures Acquire(p, Calm(now)) == Some(Grant(p.(sessions := map[NAME := FIRST], lru := [NAME]), NAME, false))
  {
    assert p.sessions[NAME := FIRST] == map[NAME := FIRST] && [NAME] + p.lru == [NAME];
  }

  lemma HeardFinal(now: Time, cfg: Config, w: Work, s: Session, p: Pending, id: Id, inflight: nat, jobs: seq<Id>,
                   writes: seq<Id>)
    requires At(now, w, s, map[id := p], inflight, jobs, writes) && s.currentRequest == id != ""
    ensures At(now, Handle(cfg, w, FinalChunk(), Calm(now)), s,
               map[id := p.(usageCharacters := 0, finalReceived := true)], inflight, jobs, writes)
  {
    assert HexCodec.Decoded("") == [] && p.audio + [] == p.audio;
    var q := p.(usageCharacters := 0, finalReceived := true);
    assert WithChunk(map[id := p], id, [], true, 0) == map[id := p][id := q] == map[id := q];
  }

  lemma Emitted(now: Time, w: Work, s: Session, p: Pending, id: Id, n: nat, jobs: seq<Id>, writes: seq<Id>)
    requires At(now, w, s, map[id := p], n + 1, jobs, writes) && p.session in {"", NAME} && n < WORD
    ensures At(now, EmitOne(w, id), Drained(s, p), map[], n, jobs, writes + [id])
  {
    AppendWrite(w.out.writes, EmittedWrite(id, p));
  }

  /** The session once the entry has been emitted. */
  function Drained(s: Session, p: Pending): Session { if p.session == NAME then s.(state := Draining) else s }

  /** The entry once its id has been asked for locally. */
  function Entered(store: Store, req: Request): Pending {
    if req.id !in store then LocalPending(req)
    else store[req.id].(sampleRate := req.audio.sampleRate, channels := req.audio.channel, format := Pcm,
                        state := PendingState.Streaming)
  }

  lemma AskedLocal(k: Scenario, cfg: Config, w: Work, s: Session, store: Store, n: nat, jobs: seq<Id>, writes: seq<Id>)
    requires At(k.now, w, s, store, n, jobs, writes) && store.Keys <= {k.near.id} && k.near.backend == Local
    requires cfg.hasEngine && n < cfg.highWatermark && n <= 1 && cfg.queueHighWatermark > 0
    ensures At(k.now, Handle(cfg, w, Ask(k.near), Calm(k.now)), s, map[k.near.id := Entered(store, k.near)], n + 1,
               jobs + [k.near.id], writes)
  {
    AppendJob(w.out.jobs, JobOf(k.near));
    assert store[k.near.id := Entered(store, k.near)] == map[k.near.id := Entered(store, k.near)];
  }

  /** The counter after a decrement. */
  function Down(n: nat): nat { if n == 0 then WORD - 1 else n - 1 }

  lemma Reported(now: Time, cfg: Config, w: Work, s: Session, done: Completion, n: nat, jobs: seq<Id>, writes: seq<Id>)
    requires At(now, w, s, map[], n, jobs, writes) && n <= 1
    ensures At(now, Handle(cfg, w, SynthComplete(done), Calm(now)), s, map[], Down(n), jobs, writes + [done.id])
  {
    AppendWrite(w.out.writes, CompleteWrite(done));
  }

  // ---- the ticks -----------------------------------------------------------------------------

  lemma One(now: Time, cfg: Config, w: Work, m: Message)
    ensures Process(cfg, w, [m], seq(1, _ => Calm(now))) == Handle(cfg, w, m, Calm(now))
  {
  }

  lemma Two(now: Time, cfg: Config, w: Work, m: Message, n: Message)
    ensures Process(cfg, w, [m, n], seq(2, _ => Calm(now))) == Handle(cfg, Handle(cfg, w, m, Calm(now)), n, Calm(now))
  {
    assert [m, n][1..] == [n];
    assert seq(2, _ => Calm(now))[1..] == seq(1, _ => Calm(now));
    One(now, cfg, Handle(cfg, w, m, Calm(now)), n);
  }

  /** A tick whose pass removes nothing leaves what handling and emitting have made. */
  lemma CalmTickIs(now: Time, cfg: Config, w: World, ready: seq<Id>, v: Work, s: Session, pending: Store, inflight: nat,
                   jobs: seq<Id>, writes: seq<Id>)
    requires |w.results| == |w.hb.out.jobs| && v == Process(cfg, Fresh(w.hb), w.Todo(), seq(|w.Todo()|, _ => Calm(now)))
    requires Enumerates(ready, ReadySet(v.pending)) && TerminalSet(pending) == {}
    requires At(now, EmitAll(v, ready), s, pending, inflight, jobs, writes)
    ensures var step := CalmTick(now, |w.Todo()|, ready);
            && Enabled(cfg, w, step)
            && At(now, Next(cfg, w, step).hb, s, pending, inflight, jobs, writes)
            && Next(cfg, w, step) == w.(reqQ := [], wsQ := [], hb := Next(cfg, w, step).hb)
  {
    var u := EmitAll(v, ready);
    OneSessionStays(now, u.pool, s, u.changedSessions);
    QuietEvolve(u, now);
  }

  lemma FirstTick(k: Scenario, cfg: Config, start: World, w: World)
    requires Fits(k, cfg, start) && w == start.(reqQ := [Ask(k.up)], asked := [k.up.id])
    ensures Enabled(cfg, w, CalmTick(k.now, 1, []))
    ensures var v := Next(cfg, w, CalmTick(k.now, 1, []));
            && At(k.now, v.hb, FIRST.(currentRequest := k.up.id),
                  map[k.up.id := UpstreamPending(k.up, NAME)], 1, [], [])
            && v == start.(hb := v.hb, asked := [k.up.id])
  {
    assert Fresh(w.hb) == start.hb && w.Todo() == [Ask(k.up)];
    AskedUpstream(k, cfg, start);
    One(k.now, cfg, start.hb, Ask(k.up));
    CalmTickIs(k.now, cfg, w, [], Handle(cfg, start.hb, Ask(k.up), Calm(k.now)), FIRST.(currentRequest := k.up.id),
               map[k.up.id := UpstreamPending(k.up, NAME)], 1, [], []);
  }

  lemma OneReady(id: Id, p: Pending)
    requires p.ReadyToEmit()
    ensures Enumerates([id], ReadySet(map[id := p]))
  {
  }

  /** The scan emits the only request there is. */
  lemma ScanOne(now: Time, w: Work, s: Session, p: Pending, id: Id, n: nat, jobs: seq<Id>, writes: seq<Id>)
    requires At(now, w, s, map[id := p], n + 1, jobs, writes) && n < WORD && p.session in {"", NAME} && p.ReadyToEmit()
    ensures Enumerates([id], ReadySet(w.pending))
    ensures At(now, EmitAll(w, [id]), Drained(s, p), map[], n, jobs, writes + [id])
  {
    OneReady(id, p);
    Emitted(now, w, s, p, id, n, jobs, writes);
    assert EmitAll(w, [id]) == EmitOne(w, id);
  }

  lemma SecondTick(now: Time, cfg: Config, w: World, s: Session, p: Pending, id: Id)
    requires At(now, w.hb, s, map[id := p], 1, [], []) && w.results == [] && s.currentRequest == id != ""
    requires p.session == NAME && p.state == PendingState.Streaming && w.reqQ == [] && w.wsQ == [FinalChunk()]
    ensures Enabled(cfg, w, CalmTick(now, 1, [id]))
    ensures var v := Next(cfg, w, CalmTick(now, 1, [id]));
            At(now, v.hb, s.(state := Draining), map[], 0, [], [id]) && v == w.(wsQ := [], hb := v.hb)
  {
    assert w.Todo() == [FinalChunk()];
    One(now, cfg, Fresh(w.hb), FinalChunk());
    HeardFinal(now, cfg, Fresh(w.hb), s, p, id, 1, [], []);
    var v := Handle(cfg, Fresh(w.hb), FinalChunk(), Calm(now));
    ScanOne(now, v, s, p.(usageCharacters := 0, finalReceived := true), id, 0, [], []);
    assert [] + [id] == [id];
    CalmTickIs(now, cfg, w, [id], v, s.(state := Draining), map[], 0, [], [id]);
  }

  /** A round can begin: the id may be asked for locally while its old session still names it. */
  ghost predicate AtRound(k: Scenario, cfg: Config, w: World, s: Session, store: Store, n: nat, jobs: seq<Id>,
                          writes: seq<Id>) {
    && At(k.now, w.hb, s, store, n, jobs, writes) && s.currentRequest == k.near.id != "" && |w.results| == |jobs|
    && k.near.backend == Local && k.result.statusCode == 0
    && cfg.hasEngine && n < cfg.highWatermark && n <= 1 && cfg.queueHighWatermark > 0
    && store.Keys <= {k.near.id} && (k.near.id in store ==> store[k.near.id].session == NAME)
  }

  /** The late chunk completes the entry of the local request, which is written while its job is still to come. */
  lemma LateTick(k: Scenario, cfg: Config, w: World, s: Session, store: Store, n: nat, jobs: seq<Id>, writes: seq<Id>)
    requires AtRound(k, cfg, w, s, store, n, jobs, writes) && w.reqQ == [Ask(k.near)] && w.wsQ == [FinalChunk()]
    ensures Enabled(cfg, w, CalmTick(k.now, 2, [k.near.id]))
    ensures var v := Next(cfg, w, CalmTick(k.now, 2, [k.near.id])); var id := k.near.id;
            && At(k.now, v.hb, Drained(s, Entered(store, k.near)), map[], n, jobs + [id], writes + [id])
            && v == w.(reqQ := [], wsQ := [], hb := v.hb)
  {
    var id, p := k.near.id, Entered(store, k.near);
    assert w.Todo() == [Ask(k.near), FinalChunk()] && |JobIds(w.hb.out.jobs)| == |w.hb.out.jobs|;
    Two(k.now, cfg, Fresh(w.hb), Ask(k.near), FinalChunk());
    AskedLocal(k, cfg, Fresh(w.hb), s, store, n, jobs, writes);
    var v := Handle(cfg, Fresh(w.hb), Ask(k.near), Calm(k.now));
    HeardFinal(k.now, cfg, v, s, p, id, n + 1, jobs + [id], writes);
    var u := Handle(cfg, v, FinalChunk(), Calm(k.now));
    ScanOne(k.now, u, s, p.(usageCharacters := 0, finalReceived := true), id, n, jobs + [id], writes);
    CalmTickIs(k.now, cfg, w, [id], u, Drained(s, p), map[], n, jobs + [id], writes + [id]);
  }

  /** The report on that job writes the request again and counts down again. */
  lemma ReportTick(now: Time, cfg: Config, w: World, s: Session, done: Completion, n: nat, jobs: seq<Id>,
                   writes: seq<Id>)
    requires At(now, w.hb, s, map[], n, jobs, writes) && n <= 1 && |w.results| == |jobs|
    requires w.reqQ == [SynthComplete(done)] && w.wsQ == []
    ensures Enabled(cfg, w, CalmTick(now, 1, []))
    ensures var v := Next(cfg, w, CalmTick(now, 1, []));
            At(now, v.hb, s, map[], Down(n), jobs, writes + [done.id]) && v == w.(reqQ := [], hb := v.hb)
  {
    assert w.Todo() == [SynthComplete(done)] && |JobIds(w.hb.out.jobs)| == |w.hb.out.jobs|;
    One(now, cfg, Fresh(w.hb), SynthComplete(done));
    Reported(now, cfg, Fresh(w.hb), s, done, n, jobs, writes);
    CalmTickIs(now, cfg, w, [], Handle(cfg, Fresh(w.hb), SynthComplete(done), Calm(now)), s, map[], Down(n), jobs,
               writes + [done.id]);
  }

  // ---- the run -------------------------------------------------------------------------------

  lemma StepOn(cfg: Config, w: World, s: Step, rest: seq<Step>)
    requires Enabled(cfg, w, s) && Legal(cfg, Next(cfg, w, s), rest)
    ensures Legal(cfg, w, [s] + rest) && After(cfg, w, [s] + rest) == After(cfg, Next(cfg, w, s), rest)
  {
    assert ([s] + rest)[1..] == rest;
  }

  lemma {:induction false} Continued(cfg: Config, w: World, before: seq<Step>, later: seq<Step>)
    requires Legal(cfg, w, before) && Legal(cfg, After(cfg, w, before), later)
    ensures Legal(cfg, w, before + later) && After(cfg, w, before + later) == After(cfg, After(cfg, w, before), later)
    decreases |before|
  {
    if before == [] {
      assert before + later == later;
    } else {
      Continued(cfg, Next(cfg, w, before[0]), before[1..], later);
      assert before + later == [before[0]] + (before[1..] + later);
      StepOn(cfg, w, before[0], before[1..] + later);
    }
  }

  lemma Alone(cfg: Config, w: World, s: Step)
    requires Enabled(cfg, w, s)
    ensures Legal(cfg, w, [s]) && After(cfg, w, [s]) == Next(cfg, w, s)
  {
  }

  /** The upstream request is asked for, bound, heard to the end and written. */
  function UpstreamPart(k: Scenario): seq<Step> {
    [SendRequest(Ask(k.up)), CalmTick(k.now, 1, [])]
    + [Bind(k.up.id, NAME), SendWs(FinalChunk()), CalmTick(k.now, 1, [k.up.id])]
  }

  /** Its id is asked for again, locally, and a late chunk comes on the old session. */
  function LatePart(k: Scenario): seq<Step> {
    [SendRequest(Ask(k.near)), SendWs(FinalChunk()), CalmTick(k.now, 2, [k.near.id])]
  }

  /** Then the engine reports. */
  function LocalPart(k: Scenario): seq<Step> { LatePart(k) + [RunJob(k.result)] }

  function Round(k: Scenario): seq<Step> { LocalPart(k) + [CalmTick(k.now, 1, [])] }

  /** With the binding step: one round after the upstream request is written. */
  function FatalRun(k: Scenario): seq<Step> { UpstreamPart(k) + Round(k) }

  /** Without it: one round frees the upstream entry, another goes wrong. */
  function UnboundPart(k: Scenario): seq<Step> { [SendRequest(Ask(k.up)), CalmTick(k.now, 1, [])] + Round(k) }

  function UnboundRun(k: Scenario): seq<Step> { UnboundPart(k) + Round(k) }

  lemma Pair(cfg: Config, w: World, a: Step, b: Step)
    requires Enabled(cfg, w, a) && Enabled(cfg, Next(cfg, w, a), b)
    ensures Legal(cfg, w, [a, b]) && After(cfg, w, [a, b]) == Next(cfg, Next(cfg, w, a), b)
  {
    Alone(cfg, Next(cfg, w, a), b);
    assert [a, b] == [a] + [b];
    StepOn(cfg, w, a, [b]);
  }

  lemma Triple(cfg: Config, w: World, a: Step, b: Step, c: Step)
    requires Enabled(cfg, w, a) && Enabled(cfg, Next(cfg, w, a), b) && Enabled(cfg, Next(cfg, Next(cfg, w, a), b), c)
    ensures Legal(cfg, w, [a, b, c]) && After(cfg, w, [a, b, c]) == Next(cfg, Next(cfg, Next(cfg, w, a), b), c)
  {
    Pair(cfg, Next(cfg, w, a), b, c);
    assert [a, b, c] == [a] + [b, c];
    StepOn(cfg, w, a, [b, c]);
  }

  const LAST := Session(Draining, 0, 0, "", "")

  lemma UpstreamRun(k: Scenario, cfg: Config, start: World)
    requires Fits(k, cfg, start)
    ensures Legal(cfg, start, UpstreamPart(k))
    ensures var v := After(cfg, start, UpstreamPart(k)); var id := k.up.id;
            At(k.now, v.hb, LAST.(currentRequest := id), map[], 0, [], [id]) && v == start.(hb := v.hb, asked := [id])
  {
    var id := k.up.id;
    AskedRun(k, cfg, start);
    var steps := [SendRequest(Ask(k.up)), CalmTick(k.now, 1, [])];
    BoundRun(k, cfg, After(cfg, start, steps));
    Continued(cfg, start, steps, [Bind(id, NAME), SendWs(FinalChunk()), CalmTick(k.now, 1, [id])]);
  }

  lemma BoundRun(k: Scenario, cfg: Config, w: World)
    requires k.up.id != "" && w.results == [] && w.reqQ == [] && w.wsQ == []
    requires At(k.now, w.hb, FIRST.(currentRequest := k.up.id), map[k.up.id := UpstreamPending(k.up, NAME)], 1, [], [])
    ensures var steps := [Bind(k.up.id, NAME), SendWs(FinalChunk()), CalmTick(k.now, 1, [k.up.id])];
            && Legal(cfg, w, steps)
            && var v := After(cfg, w, steps);
               At(k.now, v.hb, LAST.(currentRequest := k.up.id), map[], 0, [], [k.up.id]) && v == w.(hb := v.hb)
  {
    var id := k.up.id;
    var p := UpstreamPending(k.up, NAME).(state := PendingState.Streaming);
    var w1 := Next(cfg, w, Bind(id, NAME));
    assert w1.hb.pending == map[id := p];
    var w2 := Next(cfg, w1, SendWs(FinalChunk()));
    assert w2.asked == w.asked + [] == w.asked;
    SecondTick(k.now, cfg, w2, FIRST.(currentRequest := id), p, id);
    Triple(cfg, w, Bind(id, NAME), SendWs(FinalChunk()), CalmTick(k.now, 1, [id]));
  }

  /** The entry is written, and the report on its job is still to be handled. */
  ghost predicate Reporting(k: Scenario, w: World, s: Session, n: nat, jobs: seq<Id>, writes: seq<Id>) {
    && At(k.now, w.hb, s, map[], n, jobs, writes)
    && w.reqQ == [Report(k.near.id, k.result)] && w.wsQ == [] && |w.results| == |jobs|
  }

  lemma LateRun(k: Scenario, cfg: Config, w: World, s: Session, store: Store, n: nat, jobs: seq<Id>, writes: seq<Id>)
    requires AtRound(k, cfg, w, s, store, n, jobs, writes) && w.reqQ == [] && w.wsQ == []
    ensures Legal(cfg, w, LatePart(k))
    ensures var v := After(cfg, w, LatePart(k)); var id := k.near.id;
            && At(k.now, v.hb, Drained(s, Entered(store, k.near)), map[], n, jobs + [id], writes + [id])
            && v == w.(hb := v.hb, asked := w.asked + [id])
  {
    var id := k.near.id;
    var w1 := Next(cfg, w, SendRequest(Ask(k.near)));
    var w2 := Next(cfg, w1, SendWs(FinalChunk()));
    assert w2.asked == (w.asked + [id]) + [] == w.asked + [id];
    LateTick(k, cfg, w2, s, store, n, jobs, writes);
    Triple(cfg, w, SendRequest(Ask(k.near)), SendWs(FinalChunk()), CalmTick(k.now, 2, [id]));
  }

  lemma ReportStep(k: Scenario, cfg: Config, w: World, s: Session, n: nat, jobs: seq<Id>, writes: seq<Id>)
    requires cfg.hasEngine && |w.results| == |jobs| && w.reqQ == [] && w.wsQ == []
    requires At(k.now, w.hb, s, map[], n, jobs + [k.near.id], writes)
    ensures Enabled(cfg, w, RunJob(k.result))
    ensures var v := Next(cfg, w, RunJob(k.result));
            Reporting(k, v, s, n, jobs + [k.near.id], writes) && v.asked == w.asked
  {
    assert |JobIds(w.hb.out.jobs)| == |w.hb.out.jobs| && JobIds(w.hb.out.jobs)[|jobs|] == w.hb.out.jobs[|jobs|].id;
  }

  lemma LocalRun(k: Scenario, cfg: Config, w: World, s: Session, store: Store, n: nat, jobs: seq<Id>, writes: seq<Id>)
    requires AtRound(k, cfg, w, s, store, n, jobs, writes) && w.reqQ == [] && w.wsQ == []
    ensures Legal(cfg, w, LocalPart(k))
    ensures var v := After(cfg, w, LocalPart(k)); var id := k.near.id;
            && Reporting(k, v, Drained(s, Entered(store, k.near)), n, jobs + [id], writes + [id])
            && v.asked == w.asked + [id]
  {
    LateRun(k, cfg, w, s, store, n, jobs, writes);
    var v := After(cfg, w, LatePart(k));
    ReportStep(k, cfg, v, Drained(s, Entered(store, k.near)), n, jobs, writes + [k.near.id]);
    Alone(cfg, v, RunJob(k.result));
    Continued(cfg, w, LatePart(k), [RunJob(k.result)]);
  }

  lemma RoundRun(k: Scenario, cfg: Config, w: World, s: Session, store: Store, n: nat, jobs: seq<Id>, writes: seq<Id>)
    requires AtRound(k, cfg, w, s, store, n, jobs, writes) && w.reqQ == [] && w.wsQ == []
    ensures Legal(cfg, w, Round(k))
    ensures var v := After(cfg, w, Round(k)); var id := k.near.id;
            && At(k.now, v.hb, Drained(s, Entered(store, k.near)), map[], Down(n), jobs + [id], writes + [id] + [id])
            && v.asked == w.asked + [id] && |v.results| == |jobs| + 1 && v.reqQ == [] && v.wsQ == []
  {
    LocalRun(k, cfg, w, s, store, n, jobs, writes);
    var v := After(cfg, w, LocalPart(k));
    ReportTick(k.now, cfg, v, Drained(s, Entered(store, k.near)), Report(k.near.id, k.result).done, n,
               jobs + [k.near.id], writes + [k.near.id]);
    Alone(cfg, v, CalmTick(k.now, 1, []));
    Continued(cfg, w, LocalPart(k), [CalmTick(k.now, 1, [])]);
  }

  /** The upstream request is in flight on a session that names it. */
  lemma AskedRun(k: Scenario, cfg: Config, start: World)
    requires Fits(k, cfg, start)
    ensures var steps := [SendRequest(Ask(k.up)), CalmTick(k.now, 1, [])];
            && Legal(cfg, start, steps)
            && var v := After(cfg, start, steps);
               && At(k.now, v.hb, FIRST.(currentRequest := k.up.id), map[k.up.id := UpstreamPending(k.up, NAME)], 1, [],
                     [])
               && v == start.(hb := v.hb, asked := [k.up.id])
  {
    var w1 := Next(cfg, start, SendRequest(Ask(k.up)));
    assert w1 == start.(reqQ := [Ask(k.up)], asked := [k.up.id]);
    FirstTick(k, cfg, start, w1);
    Pair(cfg, start, SendRequest(Ask(k.up)), CalmTick(k.now, 1, []));
  }

  /** One write for each request so far, nothing in flight or queued, and the id still named by its session. */
  ghost predicate Poised(k: Scenario, w: World, jobs: seq<Id>) {
    && At(k.now, w.hb, LAST.(currentRequest := k.near.id), map[], 0, jobs, w.asked) && |w.results| == |jobs|
    && w.reqQ == [] && w.wsQ == []
  }

  lemma {:induction false} UnboundPoised(k: Scenario, cfg: Config, start: World)
    requires Fits(k, cfg, start) && cfg.highWatermark > 1
    ensures Legal(cfg, start, UnboundPart(k)) && Poised(k, After(cfg, start, UnboundPart(k)), [k.near.id])
  {
    var steps := [SendRequest(Ask(k.up)), CalmTick(k.now, 1, [])];
    AskedRun(k, cfg, start);
    FirstRound(k, cfg, After(cfg, start, steps));
    Continued(cfg, start, steps, Round(k));
  }

  lemma FirstRound(k: Scenario, cfg: Config, w: World)
    requires k.up.id == k.near.id != "" && k.near.backend == Local && k.result.statusCode == 0
    requires cfg.hasEngine && cfg.highWatermark > 1 && cfg.queueHighWatermark > 0
    requires At(k.now, w.hb, FIRST.(currentRequest := k.up.id), map[k.up.id := UpstreamPending(k.up, NAME)], 1, [], [])
    requires w.results == [] && w.reqQ == [] && w.wsQ == [] && w.asked == [k.up.id]
    ensures Legal(cfg, w, Round(k)) && Poised(k, After(cfg, w, Round(k)), [k.near.id])
  {
    var id := k.near.id;
    RoundRun(k, cfg, w, FIRST.(currentRequest := id), map[id := UpstreamPending(k.up, NAME)], 1, [], []);
    assert [] + [id] == [id] && [] + [id] + [id] == [id] + [id];
  }

  lemma {:induction false} BoundPoised(k: Scenario, cfg: Config, start: World)
    requires Fits(k, cfg, start)
    ensures Legal(cfg, start, UpstreamPart(k)) && Poised(k, After(cfg, start, UpstreamPart(k)), [])
  {
    UpstreamRun(k, cfg, start);
  }

  // ---- what a round makes of it --------------------------------------------------------------

  /** One write more than there were requests, a wrapped counter, and nothing left to do. */
  ghost predicate Overdelivered(w: World, id: Id) {
    && WriteIds(w.hb.out.writes) == w.asked + [id] && w.hb.metrics.inflight == WORD - 1
    && w.hb.pending == map[] && w.Todo() == [] && |w.results| == |w.hb.out.jobs|
  }

  lemma PoisedRound(k: Scenario, cfg: Config, start: World, w: World, jobs: seq<Id>)
    requires Fits(k, cfg, start) && Poised(k, w, jobs)
    ensures Legal(cfg, w, LocalPart(k)) && Legal(cfg, w, Round(k))
    ensures Reporting(k, After(cfg, w, LocalPart(k)), LAST.(currentRequest := k.near.id), 0, jobs + [k.near.id],
                      w.asked + [k.near.id])
    ensures Overdelivered(After(cfg, w, Round(k)), k.near.id)
  {
    LocalRun(k, cfg, w, LAST.(currentRequest := k.near.id), map[], 0, jobs, w.asked);
    RoundRun(k, cfg, w, LAST.(currentRequest := k.near.id), map[], 0, jobs, w.asked);
    var v := After(cfg, w, Round(k));
    assert |JobIds(v.hb.out.jobs)| == |v.hb.out.jobs|;
  }

  /** The run up to the report: the next tick takes the counter below zero. */
  ghost predicate Tipping(k: Scenario, cfg: Config, w: World) {
    && w.hb.metrics.inflight == 0 && w.Todo() == [Report(k.near.id, k.result)]
    && Enabled(cfg, w, CalmTick(k.now, 1, []))
  }

  lemma {:induction false} PoisedRun(k: Scenario, cfg: Config, start: World, before: seq<Step>, jobs: seq<Id>)
    requires Fits(k, cfg, start) && Legal(cfg, start, before) && Poised(k, After(cfg, start, before), jobs)
    ensures Legal(cfg, start, before + LocalPart(k)) && Tipping(k, cfg, After(cfg, start, before + LocalPart(k)))
    ensures Legal(cfg, start, before + Round(k)) && Overdelivered(After(cfg, start, before + Round(k)), k.near.id)
  {
    var w := After(cfg, start, before);
    PoisedRound(k, cfg, start, w, jobs);
    Continued(cfg, start, before, LocalPart(k));
    Continued(cfg, start, before, Round(k));
    RunSplit(cfg, w, LocalPart(k), [CalmTick(k.now, 1, [])]);
  }

  lemma OnlyEngineReports(k: Scenario)
    ensures forall s <- UpstreamPart(k) + LocalPart(k) :: EngineReports(s)
    ensures forall s <- FatalRun(k) :: EngineReports(s)
    ensures forall s <- UnboundPart(k) + LocalPart(k) :: EngineReports(s) && !s.Bind?
    ensures forall s <- UnboundRun(k) :: EngineReports(s) && !s.Bind?
  {
    assert forall s <- LocalPart(k) :: EngineReports(s) && !s.Bind?;
    assert forall s <- Round(k) :: EngineReports(s) && !s.Bind?;
    assert forall s <- UpstreamPart(k) :: EngineReports(s);
    assert forall s <- [SendRequest(Ask(k.up)), CalmTick(k.now, 1, [])] :: EngineReports(s) && !s.Bind?;
    assert forall s <- UnboundPart(k) :: EngineReports(s) && !s.Bind?;
  }

  /** Two requests under one id can lead to three client writes, if the upstream one is bound. */
  lemma {:induction false} WholeRun(k: Scenario, cfg: Config, start: World)
    requires Fits(k, cfg, start)
    ensures ServiceRun(cfg, start, FatalRun(k)) && Overdelivered(After(cfg, start, FatalRun(k)), k.up.id)
    ensures ServiceRun(cfg, start, UpstreamPart(k) + LocalPart(k))
    ensures Tipping(k, cfg, After(cfg, start, UpstreamPart(k) + LocalPart(k)))
  {
    BoundPoised(k, cfg, start);
    PoisedRun(k, cfg, start, UpstreamPart(k), []);
    OnlyEngineReports(k);
  }

  /** Three requests under one id can lead to four client writes without any binding step. */
  lemma {:induction false} WholeUnboundRun(k: Scenario, cfg: Config, start: World)
    requires Fits(k, cfg, start) && cfg.highWatermark > 1
    ensures ServiceRun(cfg, start, UnboundRun(k)) && Overdelivered(After(cfg, start, UnboundRun(k)), k.up.id)
    ensures ServiceRun(cfg, start, UnboundPart(k) + LocalPart(k))
    ensures Tipping(k, cfg, After(cfg, start, UnboundPart(k) + LocalPart(k)))
    ensures (forall s <- UnboundRun(k) :: !s.Bind?) && (forall s <- UnboundPart(k) + LocalPart(k) :: !s.Bind?)
  {
    UnboundPoised(k, cfg, start);
    PoisedRun(k, cfg, start, UnboundPart(k), [k.near.id]);
    OnlyEngineReports(k);
  }

  // ---- afterwards ----------------------------------------------------------------------------

  /** Once that has happened, however the run goes on, no job, frame or client write is ever made again. */
  lemma {:induction false} NothingAfter(cfg: Config, w: World, id: Id, later: seq<Step>)
    requires Overdelivered(w, id) && cfg.highWatermark < WORD
    requires Legal(cfg, w, later) && forall s <- later :: EngineReports(s)
    ensures Frozen(w.hb, After(cfg, w, later).hb) && !Admits(cfg, After(cfg, w, later).hb.metrics)
  {
    StaysShut(cfg, w, later);
  }

  /**
   * Without any binding step: in every configuration that can have an upstream and a local request open at once, three
   * requests under one id can lead to four client writes and to an inflight counter that has wrapped to the largest
   * word; and in every run that begins so, no job, frame or client write is made after that.
   */
  lemma {:induction false} OneIdBothWays(k: Scenario, cfg: Config, start: World, steps: seq<Step>)
    requires Fits(k, cfg, start) && 1 < cfg.highWatermark < WORD && ServiceRun(cfg, start, steps)
    requires UnboundRun(k) <= steps
    ensures ServiceRun(cfg, start, UnboundRun(k)) && (forall s <- UnboundRun(k) :: !s.Bind?)
    ensures var v := After(cfg, start, UnboundRun(k));
            Overdelivered(v, k.up.id) && Frozen(v.hb, After(cfg, start, steps).hb)
  {
    WholeUnboundRun(k, cfg, start);
    Afterwards(cfg, start, UnboundRun(k), steps, k.up.id);
  }

  /** With it, two requests and three client writes are enough, in every configuration that can serve both routes. */
  lemma {:induction false} BoundBothWays(k: Scenario, cfg: Config, start: World, steps: seq<Step>)
    requires Fits(k, cfg, start) && cfg.highWatermark < WORD && ServiceRun(cfg, start, steps) && FatalRun(k) <= steps
    ensures ServiceRun(cfg, start, FatalRun(k))
    ensures var v := After(cfg, start, FatalRun(k));
            Overdelivered(v, k.up.id) && Frozen(v.hb, After(cfg, start, steps).hb)
  {
    WholeRun(k, cfg, start);
    Afterwards(cfg, start, FatalRun(k), steps, k.up.id);
  }

  lemma {:induction false} Afterwards(cfg: Config, start: World, before: seq<Step>, steps: seq<Step>, id: Id)
    requires cfg.highWatermark < WORD && ServiceRun(cfg, start, before) && ServiceRun(cfg, start, steps)
    requires before <= steps && Overdelivered(After(cfg, start, before), id)
    ensures Frozen(After(cfg, start, before).hb, After(cfg, start, steps).hb)
  {
    var later := steps[|before|..];
    assert steps == before + later;
    RunSplit(cfg, start, before, later);
    NothingAfter(cfg, After(cfg, start, before), id, later);
  }
}
