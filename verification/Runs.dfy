/**
 * Whole runs: messages arrive on the channels, sessions are bound from outside, the heartbeat thread ticks and
 * then turns each job of the tick into one message. Arrivals may come between any two of these steps.
 */
module Runs {
  import opened Messages
  import opened Sessions
  import opened Pendings
  import opened HeartbeatModel

  /** `hb.out` is everything ever emitted; `results` is what the engine made of its first jobs. */
  datatype World = World(reqQ: seq<Message>, wsQ: seq<Message>, hb: Work, results: seq<Synthesis>, asked: seq<Id>) {
    function Todo(): seq<Message> { reqQ + wsQ }
  }

  datatype Step =
    | SendRequest(m: Message)
    | SendWs(m: Message)
    | Bind(id: Id, session: Id)
    | TickStep(plan: Plan)
    | RunJob(result: Synthesis)

  const FRESH_AUDIT := Audit(0, [], [], [], [])

  function Start(maxSize: nat, idleTimeout: int, maxLifetime: int): World {
    World([], [], Work(Pool(map[], [], maxSize, idleTimeout, maxLifetime), map[], Metrics(0, 0, 0, 0), EMPTY_CHANGES,
                       [], {}, {}, FRESH_AUDIT), [], [])
  }

  /** What the engine loop reports for a job. */
  function Report(id: Id, r: Synthesis): Message {
    if r.statusCode != 0 then SynthFailed(id, r.statusCode, r.statusMsg)
    else SynthComplete(Completion(id, r.pcm, r.sampleRate, r.channels, Pcm, r.durationMs, r.statusCode, r.statusMsg))
  }

  /** The heartbeat thread ticks only when it has run every job of the previous tick. */
  ghost predicate Enabled(cfg: Config, w: World, s: Step) {
    match s
    case TickStep(plan) => |w.results| == |w.hb.out.jobs| && PlanFits(cfg, w.hb, w.Todo(), plan)
    case RunJob(_) => |w.results| < |w.hb.out.jobs|
    case _ => true
  }

  ghost function Next(cfg: Config, w: World, s: Step): World
    requires Enabled(cfg, w, s)
  {
    match s
    case SendRequest(m) => w.(reqQ := w.reqQ + [m], asked := w.asked + AskId(m))
    case SendWs(m) => w.(wsQ := w.wsQ + [m], asked := w.asked + AskId(m))
    case Bind(id, session) => w.(hb := w.hb.(pending := WithSession(w.hb.pending, id, session)))
    case TickStep(plan) => w.(reqQ := [], wsQ := [], hb := Fresh(Tick(cfg, w.hb, w.Todo(), plan)))
    case RunJob(r) =>
      w.(reqQ := if cfg.hasEngine then w.reqQ + [Report(w.hb.out.jobs[|w.results|].id, r)] else w.reqQ,
         results := w.results + [r])
  }

  /** What the evolution pass of a tick begins with. */
  ghost function Unevolved(cfg: Config, w: World, plan: Plan): Work
    requires Enabled(cfg, w, TickStep(plan))
  {
    EmitAll(Process(cfg, Fresh(w.hb), w.Todo(), plan.choices), plan.ready)
  }

  ghost predicate Legal(cfg: Config, w: World, steps: seq<Step>)
    decreases |steps|
  {
    steps != [] ==> Enabled(cfg, w, steps[0]) && Legal(cfg, Next(cfg, w, steps[0]), steps[1..])
  }

  ghost function After(cfg: Config, w: World, steps: seq<Step>): World
    requires Legal(cfg, w, steps)
    decreases |steps|
  {
    if steps == [] then w else After(cfg, Next(cfg, w, steps[0]), steps[1..])
  }

  // ---- assumptions about the environment -----------------------------------------------------

  /** Nothing but the engine loop reports on jobs. */
  predicate EngineReports(s: Step) {
    (s.SendRequest? ==> !s.m.IsDone()) && (s.SendWs? ==> !s.m.IsDone())
  }

  /** The session name `s` is generated only if it was never handed out before. */
  ghost predicate NewNameBatch(cfg: Config, w: Work, batch: seq<Message>, choices: seq<Choice>, s: Id)
    requires |choices| == |batch|
    decreases |batch|
  {
    batch != [] ==> (SessionName(choices[0].entropy) == s ==> HandOut(s) !in w.audit.lease)
                    && NewNameBatch(cfg, Handle(cfg, w, batch[0], choices[0]), batch[1..], choices[1..], s)
  }

  ghost predicate NewName(cfg: Config, w: World, step: Step, s: Id)
    requires Enabled(cfg, w, step)
  {
    step.TickStep? ==> NewNameBatch(cfg, Fresh(w.hb), w.Todo(), step.plan.choices, s)
  }

  ghost predicate NewNameRun(cfg: Config, w: World, steps: seq<Step>, s: Id)
    requires Legal(cfg, w, steps)
    decreases |steps|
  {
    steps != [] ==> NewName(cfg, w, steps[0], s) && NewNameRun(cfg, Next(cfg, w, steps[0]), steps[1..], s)
  }

  /** Every generated session name is new. */
  ghost predicate NewNamesRun(cfg: Config, w: World, steps: seq<Step>)
    requires Legal(cfg, w, steps)
  {
    forall s :: NewNameRun(cfg, w, steps, s)
  }

  /** Clock readings: none is earlier than the one before. */
  ghost predicate OnwardBatch(cfg: Config, w: Work, batch: seq<Message>, choices: seq<Choice>)
    requires |choices| == |batch|
    decreases |batch|
  {
    batch != [] ==> choices[0].now >= w.audit.clock
                    && OnwardBatch(cfg, Handle(cfg, w, batch[0], choices[0]), batch[1..], choices[1..])
  }

  ghost predicate Onward(cfg: Config, w: World, s: Step)
    requires Enabled(cfg, w, s)
  {
    s.TickStep? ==>
      && OnwardBatch(cfg, Fresh(w.hb), w.Todo(), s.plan.choices)
      && s.plan.now >= Process(cfg, Fresh(w.hb), w.Todo(), s.plan.choices).audit.clock
  }

  ghost predicate OnwardRun(cfg: Config, w: World, steps: seq<Step>)
    requires Legal(cfg, w, steps)
    decreases |steps|
  {
    steps != [] ==> Onward(cfg, w, steps[0]) && OnwardRun(cfg, Next(cfg, w, steps[0]), steps[1..])
  }
}
