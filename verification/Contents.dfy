/** What requests, chunks and clock readings become: jobs, frames, client writes and the records of sessions. */
module Contents {
  import opened Messages
  import opened Seqs
  import opened Sessions
  import opened Pendings
  import opened HeartbeatModel
  import opened Runs
  import opened Ledger
  import opened Listings
  import opened Journals
  import HexCodec

  // ---- routing -------------------------------------------------------------------------------

  /** The board refuses every request. */
  predicate Overloaded(cfg: Config, m: Metrics) {
    m.inflight >= cfg.highWatermark || m.queued >= cfg.queueHighWatermark
  }

  ghost predicate SomeReady(p: Pool) { exists s :: s in p.sessions && p.sessions[s].state == Ready }

  /** An idle session is used with one frame, and no session is added. */
  ghost predicate Reuses(v: Work, req: Request, u: Work, s: Id) {
    && s in v.pool.sessions && v.pool.sessions[s].state == Ready && u.pool.sessions.Keys == v.pool.sessions.Keys
    && u.out == v.out.(frames := v.out.frames + [Frame(s, TaskContinue, ContinuePayload(req.text))])
  }

  ghost predicate Creates(v: Work, req: Request, u: Work, s: Id) {
    && u.out == v.out.(frames := v.out.frames + [Frame(s, TaskStart, StartPayload(req.model, req.voice, req.audio)),
                                                 Frame(s, TaskContinue, ContinuePayload(req.text))])
    && u.pool.sessions.Keys == v.pool.sessions.Keys + {s}
  }

  ghost predicate Refuses(v: Work, req: Request, u: Work, reason: FailureReason) {
    && u.failures == v.failures + [SendFailure(req.id, reason)]
    && u.out == v.out && u.pool == v.pool && u.pending == v.pending && u.metrics.inflight == v.metrics.inflight
  }

  ghost predicate RunsLocally(v: Work, req: Request, u: Work) {
    && u.out == v.out.(jobs := v.out.jobs + [Job(req.id, req.text, req.voice.voiceId,
                                                 if req.voice.speed > 0.0 then req.voice.speed else 1.0)])
    && u.pool == v.pool
  }

  /** What one request leads to: one of two refusals, a job, or frames on a ready or a new session. */
  ghost predicate Routed(cfg: Config, v: Work, req: Request, c: Choice, u: Work) {
    if Overloaded(cfg, v.metrics) then Refuses(v, req, u, BackpressureAdmissionDenied)
    else if cfg.hasEngine && c.engineReady && (req.backend == Local || (req.backend == Auto && cfg.preferLocal)) then
      u.failures == v.failures && RunsLocally(v, req, u)
    else if SomeReady(v.pool) then u.failures == v.failures && exists s :: Reuses(v, req, u, s)
    else if |v.pool.sessions| < v.pool.maxSize then u.failures == v.failures && Creates(v, req, u, "s-" + c.entropy)
    else Refuses(v, req, u, NoSessionAvailable)
  }

  /** The level published with the decision. */
  ghost predicate Levelled(cfg: Config, v: Work, u: Work) {
    && u.metrics.queued == v.metrics.queued
    && u.metrics.backpressure
       == (if Overloaded(cfg, v.metrics) then 2 else if v.metrics.inflight >= cfg.lowWatermark then 1 else 0)
  }

  lemma ReuseRouted(v: Work, req: Request, c: Choice)
    requires v.pool.Listed() && SomeReady(v.pool)
    ensures AskUpstream(v, req, c).failures == v.failures && exists s :: Reuses(v, req, AskUpstream(v, req, c), s)
  {
    LastReadyFound(v.pool, v.pool.lru);
    var idle := LastReady(v.pool, v.pool.lru).value;
    assert v.out.frames + [] == v.out.frames;
    assert Reuses(v, req, AskUpstream(v, req, c), idle);
  }

  /** With no session ready, a new one is handed out where there is room. */
  lemma NoneReady(p: Pool, c: Choice)
    requires p.Listed() && !SomeReady(p)
    ensures Acquire(p, c) == if |p.sessions| >= p.maxSize then None
                             else Some(Grant(p.Add("s-" + c.entropy, Session(Connecting, 0, 0, "", "")),
                                             "s-" + c.entropy, false))
  {
    LastReadyFound(p, p.lru);
  }

  lemma CreateRouted(v: Work, req: Request, c: Choice)
    requires v.pool.Listed() && !SomeReady(v.pool) && |v.pool.sessions| < v.pool.maxSize
    ensures AskUpstream(v, req, c).failures == v.failures
    ensures Creates(v, req, AskUpstream(v, req, c), "s-" + c.entropy)
  {
    NoneReady(v.pool, c);
    var s := "s-" + c.entropy;
    Associative(v.out.frames, [StartFrame(s, req)], [ContinueFrame(s, req)]);
  }

  lemma FullRouted(v: Work, req: Request, c: Choice)
    requires v.pool.Listed() && !SomeReady(v.pool) && |v.pool.sessions| >= v.pool.maxSize
    ensures Refuses(v, req, AskUpstream(v, req, c), NoSessionAvailable)
  {
    NoneReady(v.pool, c);
  }

  /** Neither the clock reading nor the level matters to where a request goes. */
  lemma RoutedAlike(cfg: Config, v: Work, w: Work, req: Request, c: Choice, u: Work)
    requires w.out == v.out && w.failures == v.failures && w.pool == v.pool && w.pending == v.pending
    requires w.metrics == v.metrics.(backpressure := w.metrics.backpressure) && Routed(cfg, w, req, c, u)
    ensures Routed(cfg, v, req, c, u)
  {
    if s :| Reuses(w, req, u, s) { assert Reuses(v, req, u, s); }
  }

  lemma UpstreamRouted(cfg: Config, w: Work, req: Request, c: Choice)
    requires w.pool.Listed() && !Overloaded(cfg, w.metrics) && !GoesLocal(cfg, req.backend, c.engineReady)
    ensures Routed(cfg, w, req, c, AskUpstream(w, req, c))
  {
    if SomeReady(w.pool) {
      ReuseRouted(w, req, c);
    } else if |w.pool.sessions| < w.pool.maxSize {
      CreateRouted(w, req, c);
    } else {
      FullRouted(w, req, c);
    }
  }

  lemma AskLevelled(cfg: Config, v: Work, req: Request, c: Choice)
    ensures Levelled(cfg, v, Handle(cfg, v, Ask(req), c))
  {
  }

  lemma AskRouted(cfg: Config, v: Work, req: Request, c: Choice)
    requires v.pool.Listed()
    ensures Routed(cfg, v, req, c, Handle(cfg, v, Ask(req), c))
  {
    var w := v.(audit := v.audit.(clock := c.now), metrics := Evaluated(cfg, v.metrics));
    var u := Handle(cfg, v, Ask(req), c);
    if Overloaded(cfg, v.metrics) {
      assert u == Denied(w, req.id, BackpressureAdmissionDenied);
    } else if GoesLocal(cfg, req.backend, c.engineReady) {
      assert u == AskLocal(w, req);
    } else {
      assert u == AskUpstream(w, req, c);
      UpstreamRouted(cfg, w, req, c);
      RoutedAlike(cfg, v, w, req, c, u);
    }
  }

  /** Every request of every tick of every run is routed so. */
  lemma {:induction false} EveryRequestIsRouted(cfg: Config, start: World, steps: seq<Step>, w: World, plan: Plan,
                                                k: nat, v: Work)
    requires AnyRun(cfg, start, steps) && w == After(cfg, start, steps) && Enabled(cfg, w, TickStep(plan))
    requires k < |w.Todo()| && w.Todo()[k].Ask? && v == Process(cfg, Fresh(w.hb), w.Todo()[..k], plan.choices[..k])
    ensures var u := Handle(cfg, v, w.Todo()[k], plan.choices[k]);
            Routed(cfg, v, w.Todo()[k].req, plan.choices[k], u) && Levelled(cfg, v, u)
  {
    PoolStaysListed(cfg, start, steps);
    ProcessAgeless(cfg, Fresh(w.hb), w.Todo()[..k], plan.choices[..k]);
    AskRouted(cfg, v, w.Todo()[k].req, plan.choices[k]);
    AskLevelled(cfg, v, w.Todo()[k].req, plan.choices[k]);
  }

  // ---- jobs ----------------------------------------------------------------------------------

  /** The request an event decides on. */
  function Decided(e: Event): seq<Request> {
    if e.Refused? || e.TookLocal? || e.TookUpstream? then [e.req] else []
  }

  function Decisions(j: seq<Event>): seq<Request> {
    if j == [] then [] else Decisions(j[..|j| - 1]) + Decided(j[|j| - 1])
  }

  /** The requests accepted for the engine, in order. */
  function Locals(j: seq<Event>): seq<Request> {
    if j == [] then [] else Locals(j[..|j| - 1]) + if j[|j| - 1].TookLocal? then [j[|j| - 1].req] else []
  }

  function Requests(todo: seq<Message>): seq<Request> {
    if todo == [] then [] else (if todo[0].Ask? then [todo[0].req] else []) + Requests(todo[1..])
  }

  function SentBy(s: Step): seq<Request> {
    if s.SendRequest? || s.SendWs? then Requests([s.m]) else []
  }

  /** The requests sent in a run, in order. */
  function Sent(steps: seq<Step>): seq<Request> {
    if steps == [] then [] else SentBy(steps[0]) + Sent(steps[1..])
  }

  /** A job says what its request says, with a speed of one where the request gives none. */
  predicate Speaks(job: Job, req: Request) {
    && job.id == req.id && job.text == req.text && job.voiceId == req.voice.voiceId
    && (if req.voice.speed > 0.0 then job.speed == req.voice.speed else job.speed == 1.0)
  }

  lemma {:induction false} JobsOfLocals(j: seq<Event>)
    ensures |Outputs(j).jobs| == |Locals(j)|
    ensures forall k :: 0 <= k < |Locals(j)| ==> Speaks(Outputs(j).jobs[k], Locals(j)[k])
    ensures multiset(Locals(j)) <= multiset(Decisions(j))
  {
    if j != [] { JobsOfLocals(j[..|j| - 1]); }
  }

  lemma {:induction false} DecisionsAppend(a: seq<Event>, b: seq<Event>)
    ensures Decisions(a + b) == Decisions(a) + Decisions(b)
    decreases |b|
  {
    if b == [] {
      assert a + b == a;
    } else {
      var n := |b| - 1;
      DecisionsAppend(a, b[..n]);
      assert (a + b)[..|a + b| - 1] == a + b[..n];
      Associative(Decisions(a), Decisions(b[..n]), Decided(b[n]));
    }
  }

  lemma {:induction false} RequestsAppend(a: seq<Message>, b: seq<Message>)
    ensures Requests(a + b) == Requests(a) + Requests(b)
    decreases |a|
  {
    if a == [] {
      assert a + b == b;
    } else {
      RequestsAppend(a[1..], b);
      assert (a + b)[1..] == a[1..] + b;
      Associative(if a[0].Ask? then [a[0].req] else [], Requests(a[1..]), Requests(b));
    }
  }

  lemma CauseDecides(cfg: Config, w: Work, m: Message, c: Choice)
    ensures Decisions([Cause(cfg, w, m, c)]) == if m.Ask? then [m.req] else []
  {
    var e := Cause(cfg, w, m, c);
    assert [e][..0] == [] && Decisions([e][..0]) == [];
  }

  /** A batch decides on exactly its requests, in order. */
  lemma {:induction false} BatchDecides(cfg: Config, w: Work, batch: seq<Message>, choices: seq<Choice>)
    requires |choices| == |batch|
    ensures Decisions(BatchEvents(cfg, w, batch, choices)) == Requests(batch)
    decreases |batch|
  {
    if batch != [] {
      var e, v := Cause(cfg, w, batch[0], choices[0]), Handle(cfg, w, batch[0], choices[0]);
      CauseDecides(cfg, w, batch[0], choices[0]);
      BatchDecides(cfg, v, batch[1..], choices[1..]);
      DecisionsAppend([e], BatchEvents(cfg, v, batch[1..], choices[1..]));
    }
  }

  lemma {:induction false} NoDecisions(j: seq<Event>)
    requires forall e <- j :: Decided(e) == []
    ensures Decisions(j) == []
  {
    if j != [] { NoDecisions(j[..|j| - 1]); }
  }

  lemma TickDecides(cfg: Config, w: World, plan: Plan)
    requires Enabled(cfg, w, TickStep(plan))
    ensures Decisions(StepEvents(cfg, w, TickStep(plan))) == Requests(w.Todo())
  {
    var batch := BatchEvents(cfg, Fresh(w.hb), w.Todo(), plan.choices);
    var scan := Emissions(Process(cfg, Fresh(w.hb), w.Todo(), plan.choices).pending, plan.ready);
    BatchDecides(cfg, Fresh(w.hb), w.Todo(), plan.choices);
    NoDecisions(scan);
    NoDecisions([Swept(plan.now)]);
    DecisionsAppend(batch, scan);
    DecisionsAppend(batch + scan, [Swept(plan.now)]);
  }

  lemma {:induction false} QueuedRequests(reqQ: seq<Message>, wsQ: seq<Message>, m: Message)
    ensures multiset(Requests((reqQ + [m]) + wsQ)) == multiset(Requests(reqQ + wsQ)) + multiset(Requests([m]))
    ensures multiset(Requests(reqQ + (wsQ + [m]))) == multiset(Requests(reqQ + wsQ)) + multiset(Requests([m]))
  {
    RequestsAppend(reqQ, wsQ);
    Shuffle(Requests(reqQ), Requests(wsQ), Requests([m]));
    assert Requests((reqQ + [m]) + wsQ) == (Requests(reqQ) + Requests([m])) + Requests(wsQ) by {
      RequestsAppend(reqQ + [m], wsQ);
      RequestsAppend(reqQ, [m]);
    }
    assert Requests(reqQ + (wsQ + [m])) == Requests(reqQ) + (Requests(wsQ) + Requests([m])) by {
      RequestsAppend(reqQ, wsQ + [m]);
      RequestsAppend(wsQ, [m]);
    }
  }

  /** What is decided and what is left make up what was there and what came. */
  ghost predicate Shared(decided: seq<Request>, left: seq<Request>, before: seq<Request>, sent: seq<Request>) {
    multiset(decided) + multiset(left) == multiset(before) + multiset(sent)
  }

  lemma AddUp(a: multiset<Request>, b: multiset<Request>, c: multiset<Request>, d: multiset<Request>,
              a': multiset<Request>, b': multiset<Request>, d': multiset<Request>)
    requires a + b == c + d && a' + b' == b + d'
    ensures (a + a') + b' == c + (d + d')
  {
    forall r ensures ((a + a') + b')[r] == (c + (d + d'))[r] {
      assert (a + b)[r] == (c + d)[r] && (a' + b')[r] == (b + d')[r];
    }
  }

  lemma SharedTwice(d: seq<Request>, left: seq<Request>, before: seq<Request>, sent: seq<Request>,
                    d': seq<Request>, left': seq<Request>, sent': seq<Request>)
    requires Shared(d, left, before, sent) && Shared(d', left', left, sent')
    ensures Shared(d + d', left', before, sent + sent')
  {
    AddUp(multiset(d), multiset(left), multiset(before), multiset(sent),
          multiset(d'), multiset(left'), multiset(sent'));
  }

  lemma StepDecides(cfg: Config, w: World, s: Step)
    requires Enabled(cfg, w, s)
    ensures Shared(Decisions(StepEvents(cfg, w, s)), Requests(Next(cfg, w, s).Todo()), Requests(w.Todo()), SentBy(s))
  {
    match s
    case SendRequest(m) => QueuedRequests(w.reqQ, w.wsQ, m);
    case SendWs(m) => QueuedRequests(w.reqQ, w.wsQ, m);
    case Bind(id, session) => NoDecisions([Rebound(id, session)]);
    case TickStep(plan) => TickDecides(cfg, w, plan);
    case RunJob(r) => ReportDecides(cfg, w, r);
  }

  lemma ReportDecides(cfg: Config, w: World, r: Synthesis)
    requires Enabled(cfg, w, RunJob(r))
    ensures multiset(Requests(Next(cfg, w, RunJob(r)).Todo())) == multiset(Requests(w.Todo()))
  {
    if cfg.hasEngine {
      var m := Report(w.hb.out.jobs[|w.results|].id, r);
      QueuedRequests(w.reqQ, w.wsQ, m);
      assert Requests([m]) == [];
    }
  }

  lemma {:induction false} RunDecides(cfg: Config, w: World, steps: seq<Step>)
    requires Legal(cfg, w, steps)
    ensures Shared(Decisions(Journal(cfg, w, steps)), Requests(After(cfg, w, steps).Todo()), Requests(w.Todo()),
                   Sent(steps))
    decreases |steps|
  {
    if steps != [] {
      var next, rest := Next(cfg, w, steps[0]), steps[1..];
      StepDecides(cfg, w, steps[0]);
      RunDecides(cfg, next, rest);
      DecisionsAppend(StepEvents(cfg, w, steps[0]), Journal(cfg, next, rest));
      SharedTwice(Decisions(StepEvents(cfg, w, steps[0])), Requests(next.Todo()), Requests(w.Todo()), SentBy(steps[0]),
                  Decisions(Journal(cfg, next, rest)), Requests(After(cfg, next, rest).Todo()), Sent(rest));
    }
  }

  /** In every run each request sent, with its whole content, is still queued or has been decided on exactly once. */
  lemma {:induction false} EveryRequestIsDecidedOnce(cfg: Config, start: World, steps: seq<Step>)
    requires AnyRun(cfg, start, steps)
    ensures multiset(Decisions(Journal(cfg, start, steps))) + multiset(Requests(After(cfg, start, steps).Todo()))
            == multiset(Sent(steps))
  {
    RunDecides(cfg, start, steps);
    assert start.Todo() == [] && multiset(Requests(start.Todo())) == multiset{};
  }

  /** In every run the jobs are, in order, what the requests accepted for the engine say, and those were all sent. */
  lemma {:induction false} JobsCarryRequests(cfg: Config, start: World, steps: seq<Step>)
    requires AnyRun(cfg, start, steps)
    ensures var jobs, reqs := After(cfg, start, steps).hb.out.jobs, Locals(Journal(cfg, start, steps));
            && |jobs| == |reqs| && (forall k :: 0 <= k < |jobs| ==> Speaks(jobs[k], reqs[k]))
            && multiset(reqs) <= multiset(Sent(steps))
  {
    EveryRunIsRecorded(cfg, start, steps, "");
    JobsOfLocals(Journal(cfg, start, steps));
    EveryRequestIsDecidedOnce(cfg, start, steps);
  }

  // ---- chunks --------------------------------------------------------------------------------

  /** The message is a chunk, and its session is serving the pending request `id`. */
  ghost predicate Carries(w: Work, m: Message, id: Id) {
    && m.WsEvent? && m.rsp.kind == AudioChunk && m.rsp.session in w.pool.sessions
    && w.pool.sessions[m.rsp.session].currentRequest == id != "" && id in w.pending
  }

  /** Such a chunk, final or not, adds its bytes to that entry and changes nothing else that is pending. */
  lemma ChunksAdd(cfg: Config, w: Work, m: Message, c: Choice, id: Id)
    requires Carries(w, m, id)
    ensures var p, bytes := w.pending[id], HexCodec.Decoded(m.rsp.audioHex);
            Handle(cfg, w, m, c).pending
            == w.pending[id := p.(audio := p.audio + bytes, cumulativeBytes := p.cumulativeBytes + |bytes|,
                                  finalReceived := p.finalReceived || m.rsp.isFinal,
                                  usageCharacters := m.rsp.usageCharacters)]
  {
  }

  /** Any other message leaves the audio of an entry alone, unless it asks for the id anew. */
  lemma OnlyChunksAdd(cfg: Config, w: Work, m: Message, c: Choice, id: Id)
    requires !Carries(w, m, id) && id in w.pending && !(m.Ask? && m.req.id == id)
    ensures var v := Handle(cfg, w, m, c);
            id in v.pending ==>
              && v.pending[id].audio == w.pending[id].audio
              && v.pending[id].finalReceived == w.pending[id].finalReceived
              && v.pending[id].usageCharacters == w.pending[id].usageCharacters
  {
    MessageStep(cfg, Limits(0, 0), w, m, c, id);
  }

  /** Does the event open an entry for the id, given whether it has one? */
  predicate Opens(e: Event, id: Id, has: bool) {
    (e.TookUpstream? && e.req.id == id) || (e.TookLocal? && e.req.id == id && !has)
  }

  function NextChunks(chunks: seq<Response>, e: Event, id: Id, has: bool): seq<Response> {
    if Opens(e, id, has) then [] else if e.Heard? && e.id == id then chunks + [e.rsp] else chunks
  }

  /** The chunks heard for an id since its entry was last opened. */
  ghost function Chunks(j: seq<Event>, id: Id): seq<Response> {
    if j == [] then []
    else
      var earlier := j[..|j| - 1];
      NextChunks(Chunks(earlier, id), j[|j| - 1], id, EntryAfter(earlier, id).Some?)
  }

  /** The request its entry was last taken for, and whether the engine took it. */
  ghost function Taken(j: seq<Event>, id: Id): Option<Event> {
    if j == [] then None
    else if (j[|j| - 1].TookLocal? || j[|j| - 1].TookUpstream?) && j[|j| - 1].req.id == id then Some(j[|j| - 1])
    else Taken(j[..|j| - 1], id)
  }

  ghost function Bytes(chunks: seq<Response>): seq<Byte> {
    if chunks == [] then []
    else Bytes(chunks[..|chunks| - 1]) + HexCodec.Decoded(chunks[|chunks| - 1].audioHex)
  }

  ghost predicate TunedBy(e: Event, sampleRate: int, channels: int, format: AudioFormat) {
    && (e.TookLocal? || e.TookUpstream?) && sampleRate == e.req.audio.sampleRate && channels == e.req.audio.channel
    && format == if e.TookLocal? then Pcm else e.req.audio.format
  }

  /** An entry holds the bytes of its chunks in order, is final if one of them is, and has the last one's usage. */
  ghost predicate Holds(p: Pending, chunks: seq<Response>) {
    && p.audio == Bytes(chunks) && p.cumulativeBytes == |p.audio|
    && (p.finalReceived <==> exists r <- chunks :: r.isFinal)
    && p.usageCharacters == if chunks == [] then 0 else chunks[|chunks| - 1].usageCharacters
  }

  lemma OneMore(p: Pending, chunks: seq<Response>, r: Response)
    requires Holds(p, chunks)
    ensures var bytes := HexCodec.Decoded(r.audioHex);
            Holds(p.(audio := p.audio + bytes, cumulativeBytes := p.cumulativeBytes + |bytes|,
                     finalReceived := p.finalReceived || r.isFinal, usageCharacters := r.usageCharacters), chunks + [r])
  {
    assert (chunks + [r])[..|chunks|] == chunks && forall x :: x in chunks + [r] <==> x in chunks || x == r;
  }

  lemma StepHolds(o: Option<Pending>, chunks: seq<Response>, e: Event, id: Id)
    requires (o.Some? ==> Holds(o.value, chunks)) && EntryStep(o, id, e).Some?
    ensures Holds(EntryStep(o, id, e).value, NextChunks(chunks, e, id, o.Some?))
  {
    if e.Heard? && e.id == id && o.Some? { OneMore(o.value, chunks, e.rsp); }
  }

  lemma {:induction false} EntryHolds(j: seq<Event>, id: Id)
    requires EntryAfter(j, id).Some?
    ensures Holds(EntryAfter(j, id).value, Chunks(j, id))
  {
    var earlier := j[..|j| - 1];
    if EntryAfter(earlier, id).Some? { EntryHolds(earlier, id); }
    StepHolds(EntryAfter(earlier, id), Chunks(earlier, id), j[|j| - 1], id);
  }

  lemma {:induction false} EntryTuned(j: seq<Event>, id: Id)
    requires EntryAfter(j, id).Some?
    ensures var p := EntryAfter(j, id).value;
            Taken(j, id).Some? && TunedBy(Taken(j, id).value, p.sampleRate, p.channels, p.format)
  {
    if EntryAfter(j[..|j| - 1], id).Some? { EntryTuned(j[..|j| - 1], id); }
  }

  // ---- emissions -----------------------------------------------------------------------------

  /** Every emitted entry is what its automaton had made of it, streaming and with its final chunk. */
  ghost predicate TrueEmissions(j: seq<Event>) {
    forall n :: 0 <= n < |j| && j[n].Emitted? ==>
      && EntryAfter(j[..n], j[n].id) == Some(j[n].entry)
      && j[n].entry.state == PendingState.Streaming && j[n].entry.finalReceived
  }

  lemma TrueAppend(j: seq<Event>, e: Event)
    requires TrueEmissions(j)
    requires e.Emitted? ==> EntryAfter(j, e.id) == Some(e.entry) && e.entry.state == PendingState.Streaming
                            && e.entry.finalReceived
    ensures TrueEmissions(j + [e])
  {
    forall n | 0 <= n <= |j| ensures (j + [e])[..n] == j[..n] {}
    assert j[..|j|] == j;
  }

  lemma {:induction false} TrueJoin(j: seq<Event>, more: seq<Event>)
    requires TrueEmissions(j) && forall e <- more :: !e.Emitted?
    ensures TrueEmissions(j + more)
    decreases |more|
  {
    if more == [] {
      assert j + more == j;
    } else {
      var n := |more| - 1;
      TrueJoin(j, more[..n]);
      TrueAppend(j + more[..n], more[n]);
      assert j + more == (j + more[..n]) + [more[n]];
    }
  }

  ghost predicate EntriesRecorded(w: Work, j: seq<Event>) { forall x :: Lookup(w.pending, x) == EntryAfter(j, x) }

  lemma EmitEntries(w: Work, id: Id, j: seq<Event>)
    requires id in w.pending && EntriesRecorded(w, j)
    ensures EntriesRecorded(EmitOne(w, id), j + [Emitted(id, w.pending[id])])
  {
    var e := Emitted(id, w.pending[id]);
    forall x ensures Lookup(EmitOne(w, id).pending, x) == EntryAfter(j + [e], x) {
      Appended(Limits(0, 0), j, e, x);
    }
  }

  lemma {:induction false} ScanTrue(w: Work, ready: seq<Id>, j: seq<Event>)
    requires Emittable(w, ready) && EntriesRecorded(w, j) && TrueEmissions(j)
    ensures TrueEmissions(j + Emissions(w.pending, ready))
    decreases |ready|
  {
    if ready == [] {
      assert j + [] == j;
    } else {
      var id := ready[0];
      var e := Emitted(id, w.pending[id]);
      assert id in ready && Lookup(w.pending, id) == EntryAfter(j, id);
      EmissionsTail(w, ready);
      TrueAppend(j, e);
      EmitEntries(w, id, j);
      ScanTrue(EmitOne(w, id), ready[1..], j + [e]);
      Associative(j, [e], Emissions(EmitOne(w, id).pending, ready[1..]));
    }
  }

  lemma {:induction false} BatchUnemitted(cfg: Config, w: Work, batch: seq<Message>, choices: seq<Choice>)
    requires |choices| == |batch|
    ensures forall e <- BatchEvents(cfg, w, batch, choices) :: !e.Emitted?
    decreases |batch|
  {
    if batch != [] { BatchUnemitted(cfg, Handle(cfg, w, batch[0], choices[0]), batch[1..], choices[1..]); }
  }

  lemma BatchEntries(cfg: Config, limits: Limits, w: Work, batch: seq<Message>, choices: seq<Choice>, j: seq<Event>)
    requires |choices| == |batch| && AllRecorded(limits, w, j)
    ensures EntriesRecorded(Process(cfg, w, batch, choices), j + BatchEvents(cfg, w, batch, choices))
  {
    var v, events := Process(cfg, w, batch, choices), BatchEvents(cfg, w, batch, choices);
    forall x ensures Lookup(v.pending, x) == EntryAfter(j + events, x) {
      assert Recorded(limits, w, j, x);
      BatchRecorded(cfg, limits, w, batch, choices, j, x);
    }
  }

  lemma FreshRecorded(limits: Limits, w: Work, j: seq<Event>)
    requires AllRecorded(limits, w, j)
    ensures AllRecorded(limits, Fresh(w), j)
  {
    forall x ensures Recorded(limits, Fresh(w), j, x) { assert Recorded(limits, w, j, x); }
  }

  lemma TickTrue(cfg: Config, limits: Limits, w: World, plan: Plan, j: seq<Event>)
    requires Steady(limits, w) && Enabled(cfg, w, TickStep(plan)) && TrueEmissions(j)
    requires AllRecorded(limits, w.hb, j)
    ensures TrueEmissions(j + StepEvents(cfg, w, TickStep(plan)))
  {
    var v := Process(cfg, Fresh(w.hb), w.Todo(), plan.choices);
    var batch, scan := BatchEvents(cfg, Fresh(w.hb), w.Todo(), plan.choices), Emissions(v.pending, plan.ready);
    UnevolvedSteady(cfg, limits, w, plan);
    FreshRecorded(limits, w.hb, j);
    BatchUnemitted(cfg, Fresh(w.hb), w.Todo(), plan.choices);
    TrueJoin(j, batch);
    BatchEntries(cfg, limits, Fresh(w.hb), w.Todo(), plan.choices, j);
    ScanTrue(v, plan.ready, j + batch);
    TrueJoin(j + batch + scan, [Swept(plan.now)]);
    Associative(j, batch, scan);
    Associative(j, batch + scan, [Swept(plan.now)]);
  }

  lemma {:induction false} RunTrue(cfg: Config, limits: Limits, w: World, steps: seq<Step>, j: seq<Event>)
    requires Steady(limits, w) && Legal(cfg, w, steps) && TrueEmissions(j)
    requires AllRecorded(limits, w.hb, j)
    ensures TrueEmissions(j + Journal(cfg, w, steps))
    decreases |steps|
  {
    if steps == [] {
      assert j + [] == j;
    } else {
      var s, next := steps[0], Next(cfg, w, steps[0]);
      var events := StepEvents(cfg, w, s);
      NextSteady(cfg, limits, w, s);
      if s.TickStep? { TickTrue(cfg, limits, w, s.plan, j); } else { TrueJoin(j, events); }
      NextAllRecorded(cfg, limits, w, s, j);
      RunTrue(cfg, limits, next, steps[1..], j + events);
      Associative(j, events, Journal(cfg, next, steps[1..]));
    }
  }

  lemma {:induction false} EveryEmissionIsTrue(cfg: Config, start: World, steps: seq<Step>)
    requires AnyRun(cfg, start, steps)
    ensures TrueEmissions(Journal(cfg, start, steps))
  {
    StartSound(start);
    assert EntryAfter([], "") == None;
    RunTrue(cfg, LimitsOf(start), start, steps, []);
    assert [] + Journal(cfg, start, steps) == Journal(cfg, start, steps);
  }

  /** In every tick of every run, an entry is emitted exactly when the batch left it streaming with its final chunk. */
  lemma {:induction false} EveryScanIsExact(cfg: Config, start: World, steps: seq<Step>, w: World, plan: Plan, id: Id)
    requires AnyRun(cfg, start, steps) && w == After(cfg, start, steps) && Enabled(cfg, w, TickStep(plan))
    ensures var p := EntryAfter(Journal(cfg, start, steps) + BatchEvents(cfg, Fresh(w.hb), w.Todo(), plan.choices), id);
            id in plan.ready <==> p.Some? && p.value.state == PendingState.Streaming && p.value.finalReceived
  {
    EveryRunIsRecorded(cfg, start, steps, id);
    BatchRecorded(cfg, LimitsOf(start), Fresh(w.hb), w.Todo(), plan.choices, Journal(cfg, start, steps), id);
  }

  // ---- client writes -------------------------------------------------------------------------

  function Writes(j: seq<Event>): seq<Write> {
    if j == [] then [] else Writes(j[..|j| - 1]) + WritesOf(j[|j| - 1])
  }

  lemma {:induction false} OutputWrites(j: seq<Event>)
    ensures Outputs(j).writes == Writes(j)
  {
    if j != [] { OutputWrites(j[..|j| - 1]); }
  }

  /** The `k`-th write comes from the `n`-th event. */
  ghost predicate WrittenBy(j: seq<Event>, k: nat, n: int) {
    0 <= n < |j| && |Writes(j[..n])| == k && WritesOf(j[n]) != []
  }

  lemma {:induction false} WriteSource(j: seq<Event>, k: nat)
    requires k < |Writes(j)|
    ensures exists n :: WrittenBy(j, k, n) && [Writes(j)[k]] == WritesOf(j[n])
  {
    var m := |j| - 1;
    var earlier := Writes(j[..m]);
    if k < |earlier| {
      WriteSource(j[..m], k);
      var n :| WrittenBy(j[..m], k, n) && [earlier[k]] == WritesOf(j[..m][n]);
      assert j[..m][..n] == j[..n];
      assert WrittenBy(j, k, n);
    } else {
      assert WrittenBy(j, k, m);
    }
  }

  /** A write reports on a local job, or carries the chunks of its request since its entry was opened. */
  ghost predicate ExactWrite(x: Write, j: seq<Event>, n: nat)
    requires n < |j|
  {
    if j[n].Reported? then [x] == ReportWrites(j[n].m)
    else
      var chunks, taken := Chunks(j[..n], x.id), Taken(j[..n], x.id);
      && j[n].Emitted? && j[n].id == x.id && x.audio == Bytes(chunks) && x.cumulativeBytes == |x.audio|
      && x.isFinal && (exists r <- chunks :: r.isFinal)
      && x.audioLengthMs == chunks[|chunks| - 1].usageCharacters
      && taken.Some? && TunedBy(taken.value, x.sampleRate, x.channels, x.format)
  }

  lemma EmissionExact(j: seq<Event>, n: nat, x: Write)
    requires TrueEmissions(j) && n < |j| && j[n].Emitted? && [x] == WritesOf(j[n])
    ensures ExactWrite(x, j, n)
  {
    EntryHolds(j[..n], j[n].id);
    EntryTuned(j[..n], j[n].id);
    assert [x][0] == WritesOf(j[n])[0];
  }

  lemma WriteExact(j: seq<Event>, n: nat, x: Write)
    requires TrueEmissions(j) && n < |j| && [x] == WritesOf(j[n])
    ensures ExactWrite(x, j, n)
  {
    if j[n].Emitted? { EmissionExact(j, n, x); }
  }

  lemma {:induction false} RunWrites(cfg: Config, start: World, steps: seq<Step>)
    requires AnyRun(cfg, start, steps)
    ensures After(cfg, start, steps).hb.out.writes == Writes(Journal(cfg, start, steps))
    ensures TrueEmissions(Journal(cfg, start, steps))
  {
    OutputWrites(Journal(cfg, start, steps));
    EveryRunIsRecorded(cfg, start, steps, "");
    EveryEmissionIsTrue(cfg, start, steps);
  }

  /**
   * Every client write of every run reports on a local job, or carries exactly the decoded chunks that its sessions
   * brought while serving its request, in order, since its entry was opened, with the tuning of that request.
   */
  lemma {:induction false} WritesAreExact(cfg: Config, start: World, steps: seq<Step>, j: seq<Event>, k: nat)
    requires AnyRun(cfg, start, steps) && j == Journal(cfg, start, steps)
    requires k < |After(cfg, start, steps).hb.out.writes|
    ensures exists n :: WrittenBy(j, k, n) && ExactWrite(After(cfg, start, steps).hb.out.writes[k], j, n)
  {
    RunWrites(cfg, start, steps);
    WriteSource(j, k);
    var n :| WrittenBy(j, k, n) && [Writes(j)[k]] == WritesOf(j[n]);
    WriteExact(j, n, Writes(j)[k]);
  }

  ghost function Joined(raw: seq<seq<Byte>>): seq<Byte> {
    if raw == [] then [] else Joined(raw[..|raw| - 1]) + raw[|raw| - 1]
  }

  /** Each chunk encodes the bytes given for it. */
  ghost predicate WellEncoded(chunks: seq<Response>, raw: seq<seq<Byte>>) {
    |raw| == |chunks| && forall k :: 0 <= k < |chunks| ==> chunks[k].audioHex == HexCodec.Encoded(raw[k])
  }

  lemma {:induction false} WellEncodedAudio(chunks: seq<Response>, raw: seq<seq<Byte>>)
    requires WellEncoded(chunks, raw)
    ensures Bytes(chunks) == Joined(raw)
  {
    if chunks != [] {
      var n := |chunks| - 1;
      WellEncodedAudio(chunks[..n], raw[..n]);
      HexCodec.RoundTrip(raw[n]);
    }
  }

  lemma EmissionOriginal(j: seq<Event>, n: nat, raw: seq<seq<Byte>>)
    requires TrueEmissions(j) && n < |j| && j[n].Emitted? && WellEncoded(Chunks(j[..n], j[n].id), raw)
    ensures j[n].entry.audio == Joined(raw)
  {
    EntryHolds(j[..n], j[n].id);
    WellEncodedAudio(Chunks(j[..n], j[n].id), raw);
  }

  lemma {:induction false} WritesGrow(j: seq<Event>, n: nat)
    requires n <= |j|
    ensures Writes(j[..n]) <= Writes(j)
  {
    if n == |j| {
      assert j[..n] == j;
    } else {
      WritesGrow(j[..|j| - 1], n);
      assert j[..|j| - 1][..n] == j[..n];
    }
  }

  /** The write of an event stands where the writes before it end. */
  lemma WritePlace(j: seq<Event>, n: nat, x: Write)
    requires n < |j| && WritesOf(j[n]) == [x]
    ensures |Writes(j[..n])| < |Writes(j)| && Writes(j)[|Writes(j[..n])|] == x
  {
    WritesGrow(j, n + 1);
    assert j[..n + 1][..n] == j[..n];
    assert Writes(j[..n + 1]) == Writes(j[..n]) + [x];
  }

  /** So an upstream write of any run carries the original bytes of its own well-encoded chunks. */
  lemma {:induction false} WritesAreOriginal(cfg: Config, start: World, steps: seq<Step>, j: seq<Event>, k: nat,
                                             n: nat, raw: seq<seq<Byte>>)
    requires AnyRun(cfg, start, steps) && j == Journal(cfg, start, steps) && WrittenBy(j, k, n)
    requires j[n].Emitted? && WellEncoded(Chunks(j[..n], j[n].id), raw)
    ensures var writes := After(cfg, start, steps).hb.out.writes; k < |writes| && writes[k].audio == Joined(raw)
  {
    RunWrites(cfg, start, steps);
    EmissionOriginal(j, n, raw);
    WritePlace(j, n, WritesOf(j[n])[0]);
  }

  // ---- sessions ------------------------------------------------------------------------------

  /** The request a session was last handed out for. */
  ghost function LastServed(j: seq<Event>, s: Id): Option<Id> {
    if j == [] then None
    else if j[|j| - 1].TookUpstream? && j[|j| - 1].session == s then Some(j[|j| - 1].req.id)
    else LastServed(j[..|j| - 1], s)
  }

  /** The clock reading when a session last connected. */
  ghost function LastReadied(j: seq<Event>, s: Id): Option<Time> {
    if j == [] then None
    else if j[|j| - 1].Readied? && j[|j| - 1].session == s then Some(j[|j| - 1].now)
    else LastReadied(j[..|j| - 1], s)
  }

  lemma {:induction false} SessionHistory(limits: Limits, j: seq<Event>, s: Id)
    requires SessionAfter(limits, j, s).Some?
    ensures var r := SessionAfter(limits, j, s).value;
            && LastServed(j, s) == Some(r.currentRequest)
            && (r.state == Ready ==> LastReadied(j, s) == Some(r.lastActiveAt))
  {
    if SessionAfter(limits, j[..|j| - 1], s).Some? { SessionHistory(limits, j[..|j| - 1], s); }
  }

  /**
   * In every run a pooled session serves the request it was last handed out for, so chunks go to that one, and the
   * activity time of a ready session is the clock reading when it last connected.
   */
  lemma {:induction false} SessionsServeTheirLast(cfg: Config, start: World, steps: seq<Step>, s: Id)
    requires AnyRun(cfg, start, steps) && s in After(cfg, start, steps).hb.pool.sessions
    ensures var r, j := After(cfg, start, steps).hb.pool.sessions[s], Journal(cfg, start, steps);
            && LastServed(j, s) == Some(r.currentRequest)
            && (r.state == Ready ==> LastReadied(j, s) == Some(r.lastActiveAt))
  {
    EveryRunIsRecorded(cfg, start, steps, s);
    SessionHistory(LimitsOf(start), Journal(cfg, start, steps), s);
  }
}
