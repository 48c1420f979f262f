/** The heartbeat thread's loop: tick, hand over the client writes, turn each job into one message. */
module Service {
  import opened Messages
  import opened HeartbeatModel
  import opened Runs
  import opened Channels
  import opened Heartbeats

  /** `outcomes` says what the engine makes of the first job, the second and so on; equal jobs may differ in it. */
  function JobSteps(jobs: nat, outcomes: nat -> Synthesis): seq<Step> {
    seq(jobs, i requires 0 <= i < jobs => RunJob(outcomes(i)))
  }

  lemma {:induction false} JobStepsLegal(cfg: Config, w: World, steps: seq<Step>)
    requires (forall s <- steps :: s.RunJob?) && |w.results| + |steps| <= |w.hb.out.jobs|
    ensures Legal(cfg, w, steps)
    decreases |steps|
  {
    if steps != [] {
      assert steps[0] in steps;
      JobStepsLegal(cfg, Next(cfg, w, steps[0]), steps[1..]);
    }
  }

  class TtsService {
    const heartbeat: Heartbeat
    const requests: CopyChannel<Message>
    const wsEvents: CopyChannel<Message>
    ghost var results: seq<Synthesis>
    ghost var asked: seq<Id>

    ghost predicate Valid()
      reads this, heartbeat, requests, wsEvents
    {
      && heartbeat.Valid() && requests == heartbeat.processor.requests && wsEvents == heartbeat.processor.wsEvents
      && !requests.closed && !wsEvents.closed
    }

    /** The heartbeat thread is between two iterations of its loop. */
    ghost predicate Idle()
      reads this, heartbeat.builder
    {
      heartbeat.builder.changes == EMPTY_CHANGES && |results| == |heartbeat.builder.Total().jobs|
    }

    ghost function View(): World
      reads this, heartbeat, heartbeat.builder, requests, wsEvents
      reads heartbeat.board.pool, heartbeat.board.pending, heartbeat.board.metrics
    {
      World(requests.buffer, wsEvents.buffer, heartbeat.State({}, {}), results, asked)
    }

    constructor (cfg: Config, maxSize: nat, idleTimeout: int, maxLifetime: int)
      ensures Valid() && Idle() && View() == Start(maxSize, idleTimeout, maxLifetime) && heartbeat.cfg == cfg
    {
      var r := new CopyChannel<Message>();
      var e := new CopyChannel<Message>();
      var board := new DataBoard(maxSize, idleTimeout, maxLifetime);
      requests, wsEvents := r, e;
      heartbeat := new Heartbeat(cfg, board, r, e);
      results, asked := [], [];
    }

    method SubmitRequest(m: Message)
      requires Valid()
      modifies this, requests
      ensures Valid() && View() == Next(heartbeat.cfg, old(View()), Step.SendRequest(m))
    {
      var sent := requests.Send(m);
      asked := asked + AskId(m);
    }

    method UpstreamEvent(m: Message)
      requires Valid()
      modifies this, wsEvents
      ensures Valid() && View() == Next(heartbeat.cfg, old(View()), Step.SendWs(m))
    {
      var sent := wsEvents.Send(m);
      asked := asked + AskId(m);
    }

    method BindSession(id: Id, session: Id)
      requires Valid()
      modifies heartbeat.board.pending
      ensures Valid() && View() == Next(heartbeat.cfg, old(View()), Bind(id, session))
    {
      heartbeat.board.pending.BindSession(id, session);
    }

    method RunOneJob(job: Job, r: Synthesis)
      requires Valid() && |results| < |heartbeat.builder.Total().jobs|
               && job == heartbeat.builder.Total().jobs[|results|]
      modifies this, requests
      ensures Valid() && View() == Next(heartbeat.cfg, old(View()), RunJob(r))
    {
      results := results + [r];
      if !heartbeat.cfg.hasEngine { return; }
      if r.statusCode != 0 {
        var sent := requests.Send(SynthFailed(job.id, r.statusCode, r.statusMsg));
      } else {
        var done := Completion(job.id, r.pcm, r.sampleRate, r.channels, Pcm, r.durationMs, r.statusCode, r.statusMsg);
        var sent := requests.Send(SynthComplete(done));
      }
    }

    method RunJobs(jobs: seq<Job>, outcomes: nat -> Synthesis)
      requires Valid() && |results| + |jobs| == |heartbeat.builder.Total().jobs|
      requires jobs == heartbeat.builder.Total().jobs[|results|..]
      modifies this, requests
      ensures Valid() && |results| == |heartbeat.builder.Total().jobs|
      ensures Legal(heartbeat.cfg, old(View()), JobSteps(|jobs|, outcomes))
      ensures View() == After(heartbeat.cfg, old(View()), JobSteps(|jobs|, outcomes))
    {
      ghost var steps := JobSteps(|jobs|, outcomes);
      JobStepsLegal(heartbeat.cfg, View(), steps);
      ghost var goal := After(heartbeat.cfg, View(), steps);
      assert steps[0..] == steps;
      for i := 0 to |jobs|
        modifies this, requests
        invariant Valid() && |results| == old(|results|) + i
        invariant Legal(heartbeat.cfg, View(), steps[i..]) && After(heartbeat.cfg, View(), steps[i..]) == goal
      {
        assert steps[i..][0] == steps[i] && steps[i..][1..] == steps[i + 1..];
        RunOneJob(jobs[i], outcomes(i));
      }
    }

    /** One iteration of the thread's loop is a legal stretch of a run: a tick, then one step for each of its jobs. */
    method Iterate(choices: seq<Choice>, now: Time, outcomes: nat -> Synthesis)
      returns (writes: seq<Write>, ghost steps: seq<Step>)
      requires Valid() && Idle() && |choices| == |requests.buffer| + |wsEvents.buffer|
      modifies this, requests, wsEvents, heartbeat, heartbeat.builder
      modifies heartbeat.board.pool, heartbeat.board.pending, heartbeat.board.metrics
      ensures Valid() && Idle()
      ensures Legal(heartbeat.cfg, old(View()), steps) && View() == After(heartbeat.cfg, old(View()), steps)
      ensures steps != [] && steps[0].TickStep? && steps[1..] == JobSteps(|steps| - 1, outcomes)
      ensures View().hb.out.writes == old(View()).hb.out.writes + writes
    {
      var cs, plan := heartbeat.Tick(choices, now);
      assert View() == Next(heartbeat.cfg, old(View()), TickStep(plan));
      writes := cs.writes;
      label ticked:
      RunJobs(cs.jobs, outcomes);
      steps := [TickStep(plan)] + JobSteps(|cs.jobs|, outcomes);
      assert steps[1..] == JobSteps(|cs.jobs|, outcomes);
      assert After(heartbeat.cfg, old(View()), steps) == After(heartbeat.cfg, old@ticked(View()), steps[1..]);
    }
  }
}
