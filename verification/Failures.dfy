/** Upstream requests that fail or are cancelled: they are never delivered, and their slots are never freed. */
module Failures {
  import opened Messages
  import opened Seqs
  import opened Pendings
  import opened HeartbeatModel
  import opened Runs
  import opened Ledger
  import opened Delivery
  import opened Load

  /** The message neither asks for the id nor reports on it. */
  predicate Silent(m: Message, id: Id) {
    match m
    case Ask(req) => req.id != id
    case SynthComplete(done) => done.id != id
    case SynthFailed(x, _, _) => x != id
    case _ => true
  }

  function WriteCount(w: Work, id: Id): nat { multiset(WriteIds(w.out.writes))[id] }

  ghost predicate SameCounts(w: Work, v: Work, id: Id) {
    && WriteCount(v, id) == WriteCount(w, id)
    && multiset(v.audit.bound)[id] == multiset(w.audit.bound)[id]
    && multiset(JobIds(v.out.jobs))[id] == multiset(JobIds(w.out.jobs))[id]
  }

  lemma OthersWrite(w: Work, x: Write, id: Id)
    requires x.id != id
    ensures multiset(WriteIds(w.out.writes + [x]))[id] == WriteCount(w, id)
  {
    AppendWrite(w.out.writes, x);
  }

  /** What a silent message does to an id: nothing is counted for it, and a missing or doomed entry stays so. */
  lemma HandleSilent(cfg: Config, w: Work, m: Message, c: Choice, id: Id)
    requires Silent(m, id)
    ensures SameCounts(w, Handle(cfg, w, m, c), id)
    ensures id !in w.pending ==> id !in Handle(cfg, w, m, c).pending
    ensures id in w.pending && w.pending[id].Terminal() ==>
              id in Handle(cfg, w, m, c).pending && Handle(cfg, w, m, c).pending[id].Terminal()
  {
    var v := w.(audit := w.audit.(clock := c.now));
    match m
    case Ask(req) => AskSilent(cfg, v, req, c, id);
    case WsEvent(rsp) => EventSilent(v, rsp, c, id);
    case Cancel(_) =>
    case SynthComplete(done) => OthersWrite(w, CompleteWrite(done), id);
    case SynthFailed(x, code, msg) => OthersWrite(w, FailedWrite(x, code, msg), id);
  }

  lemma EventSilent(w: Work, rsp: Response, c: Choice, id: Id)
    ensures var v := HandleEvent(w, rsp, c);
            && SameCounts(w, v, id) && (id in v.pending <==> id in w.pending)
            && (id in w.pending && w.pending[id].Terminal() ==> v.pending[id].Terminal())
  {
    EventsAreQuiet(w, rsp, c);
    EventKeepsIds(w, rsp, c);
  }

  lemma AskSilent(cfg: Config, w: Work, req: Request, c: Choice, id: Id)
    requires req.id != id
    ensures SameCounts(w, HandleAsk(cfg, w, req, c), id)
    ensures id in HandleAsk(cfg, w, req, c).pending <==> id in w.pending
    ensures id in w.pending ==> HandleAsk(cfg, w, req, c).pending[id] == w.pending[id]
  {
    AppendJob(w.out.jobs, JobOf(req));
  }

  lemma {:induction false} ProcessSilent(cfg: Config, w: Work, batch: seq<Message>, choices: seq<Choice>, id: Id)
    requires |choices| == |batch| && forall m <- batch :: Silent(m, id)
    ensures SameCounts(w, Process(cfg, w, batch, choices), id)
    ensures id !in w.pending ==> id !in Process(cfg, w, batch, choices).pending
    ensures id in w.pending && w.pending[id].Terminal() ==>
              id in Process(cfg, w, batch, choices).pending && Process(cfg, w, batch, choices).pending[id].Terminal()
    decreases |batch|
  {
    if batch != [] {
      assert batch[0] in batch;
      HandleSilent(cfg, w, batch[0], choices[0], id);
      ProcessSilent(cfg, Handle(cfg, w, batch[0], choices[0]), batch[1..], choices[1..], id);
    }
  }

  lemma {:induction false} EmitOthers(w: Work, ready: seq<Id>, id: Id)
    requires id !in ready
    ensures SameCounts(w, EmitAll(w, ready), id)
    decreases |ready|
  {
    if ready != [] {
      assert ready[0] in ready;
      if ready[0] in w.pending { OthersWrite(w, EmittedWrite(ready[0], w.pending[ready[0]]), id); }
      EmitOthers(EmitOne(w, ready[0]), ready[1..], id);
    }
  }

  /** After the batch, an entry that is missing or doomed is gone at the end of the tick, without a write. */
  lemma {:induction false} FinishSilent(w: Work, plan: Plan, id: Id)
    requires Enumerates(plan.ready, ReadySet(w.pending)) && OrdersFit(EmitAll(w, plan.ready), plan.now, plan.orders)
    requires id !in w.pending || w.pending[id].Terminal()
    ensures var v := Evolve(EmitAll(w, plan.ready), plan.now, plan.orders); SameCounts(w, v, id) && id !in v.pending
  {
    EmitOthers(w, plan.ready, id);
    EmitAllPending(w, plan.ready);
  }

  // ---- gone for good -------------------------------------------------------------------------

  /** The id has no entry, no job and no message on its way. */
  ghost predicate Gone(w: World, id: Id) {
    id !in w.hb.pending && id !in JobIds(w.hb.out.jobs) && forall m <- w.Todo() :: Silent(m, id)
  }

  predicate SilentStep(s: Step, id: Id) {
    (s.SendRequest? ==> Silent(s.m, id)) && (s.SendWs? ==> Silent(s.m, id))
  }

  lemma NextGone(cfg: Config, w: World, s: Step, id: Id)
    requires Gone(w, id) && Enabled(cfg, w, s) && SilentStep(s, id)
    ensures Gone(Next(cfg, w, s), id) && SameCounts(w.hb, Next(cfg, w, s).hb, id)
  {
    match s
    case TickStep(plan) =>
      ProcessSilent(cfg, Fresh(w.hb), w.Todo(), plan.choices, id);
      FinishSilent(Process(cfg, Fresh(w.hb), w.Todo(), plan.choices), plan, id);
    case RunJob(r) =>
      assert JobIds(w.hb.out.jobs)[|w.results|] == w.hb.out.jobs[|w.results|].id;
    case _ =>
  }

  lemma {:induction false} RunGone(cfg: Config, w: World, steps: seq<Step>, id: Id)
    requires Gone(w, id) && Legal(cfg, w, steps) && forall s <- steps :: SilentStep(s, id)
    ensures Gone(After(cfg, w, steps), id) && SameCounts(w.hb, After(cfg, w, steps).hb, id)
    decreases |steps|
  {
    if steps != [] {
      assert steps[0] in steps;
      NextGone(cfg, w, steps[0], id);
      RunGone(cfg, Next(cfg, w, steps[0]), steps[1..], id);
    }
  }

  // ---- failure wins --------------------------------------------------------------------------

  /** The message fails or cancels a request that is pending. */
  predicate Fails(w: Work, m: Message, id: Id) {
    id in w.pending
    && match m
       case Cancel(x) => x == id
       case WsEvent(rsp) => rsp.kind in {TaskFailed, Disconnected} && rsp.session == w.pending[id].session
       case _ => false
  }

  lemma FailureMarks(cfg: Config, w: Work, m: Message, c: Choice, id: Id)
    requires Fails(w, m, id)
    ensures Silent(m, id) && id in Handle(cfg, w, m, c).pending && Handle(cfg, w, m, c).pending[id].Terminal()
  {
  }

  lemma {:induction false} ProcessSplit(cfg: Config, w: Work, batch: seq<Message>, choices: seq<Choice>, k: nat)
    requires |choices| == |batch| && k <= |batch|
    ensures Process(cfg, w, batch, choices)
            == Process(cfg, Process(cfg, w, batch[..k], choices[..k]), batch[k..], choices[k..])
    decreases k
  {
    if k > 0 {
      ProcessSplit(cfg, Handle(cfg, w, batch[0], choices[0]), batch[1..], choices[1..], k - 1);
      assert batch[..k][1..] == batch[1..][..k - 1] && choices[..k][1..] == choices[1..][..k - 1];
      assert batch[1..][k - 1..] == batch[k..] && choices[1..][k - 1..] == choices[k..];
    }
  }

  lemma {:induction false} SilentWhenUnnamed(ms: seq<Message>, id: Id)
    requires id !in AskIds(ms) && id !in WriteIds(DoneWrites(ms))
    ensures forall m <- ms :: Silent(m, id)
  {
    if ms != [] {
      var rest := DoneWrites(ms[1..]);
      assert WriteIds(DoneWrites(ms)) == WriteIds(DoneWrite(ms[0])) + WriteIds(rest);
      SilentWhenUnnamed(ms[1..], id);
      if ms[0].IsDone() { assert WriteIds(DoneWrite(ms[0]))[0] == DoneWrite(ms[0])[0].id; }
      assert Silent(ms[0], id);
    }
  }

  lemma ReportsNameJobs(w: Work, done: seq<Write>, results: seq<Synthesis>, id: Id)
    requires InOrder(w, done, results) && id in WriteIds(done)
    ensures id in JobIds(w.out.jobs)
  {
    var k :| 0 <= k < |done| && done[k].id == id;
    var n := |w.audit.delivered| + k;
    assert (w.audit.delivered + done)[n] == done[k];
    assert JobIds(w.out.jobs)[n] == id;
  }

  /** A pending upstream request asked for once: nothing was written for it and nothing more will name it. */
  lemma LoneUpstream(cfg: Config, w: Work, rest: seq<Message>, results: seq<Synthesis>, asked: seq<Id>, id: Id)
    requires Balanced(w, AskIds(rest), asked) && Tracked(cfg, w, DoneWrites(rest), results, id)
    requires id in w.pending && id in w.audit.bound && multiset(asked)[id] <= 1
    ensures WriteCount(w, id) == 0 && id !in JobIds(w.out.jobs) && forall m <- rest :: Silent(m, id)
  {
    assert multiset(JobIds(w.out.jobs))[id] + multiset(w.audit.bound)[id] + multiset(AskIds(rest))[id] <= 1;
    UnmixedOpen(cfg, w, DoneWrites(rest), results, id);
    if id in WriteIds(DoneWrites(rest)) { ReportsNameJobs(w, DoneWrites(rest), results, id); }
    SilentWhenUnnamed(rest, id);
  }

  lemma SplitAsks(todo: seq<Message>, k: nat)
    requires k <= |todo|
    ensures AskIds(todo) == AskIds(todo[..k]) + AskIds(todo[k..])
  {
    assert todo == todo[..k] + todo[k..];
    AskIdsAppend(todo[..k], todo[k..]);
  }

  /** The invariants hold between any two messages of a batch. */
  lemma MidBatchBalanced(cfg: Config, w: Work, todo: seq<Message>, choices: seq<Choice>, asked: seq<Id>, k: nat)
    requires Sound(w, AskIds(todo), asked) && |choices| == |todo| && k <= |todo|
    ensures Balanced(Process(cfg, w, todo[..k], choices[..k]), AskIds(todo[k..]), asked)
  {
    SplitAsks(todo, k);
    ProcessSound(cfg, w, todo[..k], choices[..k], AskIds(todo[k..]), asked);
  }

  lemma MidBatchTracked(cfg: Config, w: Work, todo: seq<Message>, choices: seq<Choice>, results: seq<Synthesis>,
                        k: nat, id: Id)
    requires Tracked(cfg, w, DoneWrites(todo), results, id) && |choices| == |todo| && k <= |todo|
    ensures Tracked(cfg, Process(cfg, w, todo[..k], choices[..k]), DoneWrites(todo[k..]), results, id)
  {
    assert todo == todo[..k] + todo[k..];
    DoneWritesAppend(todo[..k], todo[k..]);
    ProcessTracked(cfg, w, todo[..k], choices[..k], DoneWrites(todo[k..]), results, id);
  }

  lemma MidBatchLone(cfg: Config, w: Work, todo: seq<Message>, choices: seq<Choice>, results: seq<Synthesis>,
                     asked: seq<Id>, k: nat, v: Work, id: Id)
    requires Sound(w, AskIds(todo), asked) && Tracked(cfg, w, DoneWrites(todo), results, id)
    requires multiset(asked)[id] <= 1 && |choices| == |todo| && k < |todo|
    requires v == Process(cfg, w, todo[..k], choices[..k]) && id in v.audit.bound && id in v.pending
    ensures WriteCount(v, id) == 0 && id !in JobIds(v.out.jobs) && forall m <- todo[k..] :: Silent(m, id)
  {
    MidBatchBalanced(cfg, w, todo, choices, asked, k);
    MidBatchTracked(cfg, w, todo, choices, results, k, id);
    LoneUpstream(cfg, v, todo[k..], results, asked, id);
  }

  lemma FailedInBatch(cfg: Config, w: Work, todo: seq<Message>, choices: seq<Choice>, k: nat, v: Work, id: Id)
    requires |choices| == |todo| && k < |todo| && v == Process(cfg, w, todo[..k], choices[..k])
    requires WriteCount(v, id) == 0 && id !in JobIds(v.out.jobs) && (forall m <- todo[k..] :: Silent(m, id))
    requires id in v.audit.bound && Fails(v, todo[k], id)
    ensures var u := Process(cfg, w, todo, choices);
            && WriteCount(u, id) == 0 && id !in JobIds(u.out.jobs) && id in u.audit.bound
            && id in u.pending && u.pending[id].Terminal()
  {
    FailedSuffix(cfg, v, todo[k..], choices[k..], id);
    ProcessSplit(cfg, w, todo, choices, k);
  }

  lemma FailedSuffix(cfg: Config, w: Work, batch: seq<Message>, choices: seq<Choice>, id: Id)
    requires |choices| == |batch| > 0 && Fails(w, batch[0], id) && forall m <- batch :: Silent(m, id)
    ensures var u := Process(cfg, w, batch, choices);
            SameCounts(w, u, id) && id in u.pending && u.pending[id].Terminal()
  {
    FailureMarks(cfg, w, batch[0], choices[0], id);
    HandleSilent(cfg, w, batch[0], choices[0], id);
    ProcessSilent(cfg, Handle(cfg, w, batch[0], choices[0]), batch[1..], choices[1..], id);
  }

  /** Accepted upstream only, gone, and not written as often as it was accepted. */
  ghost predicate SlotLost(w: Work, id: Id) {
    id !in w.pending && id !in JobIds(w.out.jobs) && WriteCount(w, id) < multiset(w.audit.bound)[id]
  }

  /** A lost slot, and nothing on its way names the id. */
  ghost predicate Abandoned(w: World, id: Id) {
    SlotLost(w.hb, id) && forall m <- w.Todo() :: Silent(m, id)
  }

  lemma {:induction false} AbandonedStays(cfg: Config, w: World, steps: seq<Step>, id: Id)
    requires Abandoned(w, id) && Legal(cfg, w, steps) && forall s <- steps :: SilentStep(s, id)
    ensures Abandoned(After(cfg, w, steps), id)
  {
    RunGone(cfg, w, steps, id);
  }

  lemma FailedAbandons(cfg: Config, w: World, plan: Plan, u: Work, id: Id)
    requires Enabled(cfg, w, TickStep(plan)) && u == Process(cfg, Fresh(w.hb), w.Todo(), plan.choices)
    requires WriteCount(u, id) == 0 && id !in JobIds(u.out.jobs) && id in u.audit.bound
    requires id in u.pending && u.pending[id].Terminal()
    ensures Abandoned(Next(cfg, w, TickStep(plan)), id) && WriteCount(Next(cfg, w, TickStep(plan)).hb, id) == 0
  {
    FinishSilent(u, plan, id);
    EmitAllGrows(u, plan.ready);
  }

  /**
   * Failure wins: an upstream request asked for once that is failed or cancelled by the k-th message of a tick's batch
   * is gone at the end of that tick and no client write is ever made for it, whatever chunks the batch holds; from then
   * on it is abandoned, so that its slot is lost.
   */
  lemma {:induction false} FailureWins(cfg: Config, start: World, before: seq<Step>, w: World, plan: Plan, k: nat,
                                       v: Work, next: World, later: seq<Step>, id: Id)
    requires ServiceRun(cfg, start, before) && w == After(cfg, start, before) && multiset(w.asked)[id] <= 1
    requires Enabled(cfg, w, TickStep(plan)) && next == Next(cfg, w, TickStep(plan))
    requires k < |w.Todo()| && v == Process(cfg, Fresh(w.hb), w.Todo()[..k], plan.choices[..k])
    requires id in v.audit.bound && Fails(v, w.Todo()[k], id)
    requires Legal(cfg, next, later) && forall s <- later :: SilentStep(s, id)
    ensures id !in next.hb.pending && WriteCount(After(cfg, next, later).hb, id) == 0
    ensures Abandoned(next, id) && Abandoned(After(cfg, next, later), id)
  {
    RunInvariants(cfg, start, before, id);
    StartOfTick(w);
    TodoTracked(cfg, w, id);
    MidBatchLone(cfg, Fresh(w.hb), w.Todo(), plan.choices, w.results, w.asked, k, v, id);
    FailedInBatch(cfg, Fresh(w.hb), w.Todo(), plan.choices, k, v, id);
    FailedAbandons(cfg, w, plan, Process(cfg, Fresh(w.hb), w.Todo(), plan.choices), id);
    RunGone(cfg, next, later, id);
  }

  lemma {:induction false} RunSplit(cfg: Config, w: World, before: seq<Step>, later: seq<Step>)
    requires Legal(cfg, w, before + later)
    ensures Legal(cfg, w, before) && Legal(cfg, After(cfg, w, before), later)
    ensures After(cfg, w, before + later) == After(cfg, After(cfg, w, before), later)
    decreases |before|
  {
    if before == [] {
      assert before + later == later;
    } else {
      assert (before + later)[1..] == before[1..] + later;
      RunSplit(cfg, Next(cfg, w, before[0]), before[1..], later);
    }
  }
}
