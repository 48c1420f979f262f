# A verified model of the TTS bridge's heartbeat

The service accepts text-to-speech requests, serves them either from a local engine or over pooled upstream WebSocket
sessions, and does all of its bookkeeping in one place: a heartbeat thread that drains two channels, handles every
message against a shared board, emits the finished requests, lets the board evolve once and hands over a change set.
This project models that heartbeat and the loop around it in Dafny, and proves what holds in every run of it. Three
smaller components that the service rests on are modelled as well: the linear resampler, the deadline timer and the
event bus.

`dafny verify dfyconfig.toml` checks the whole project.

## How it is put together

The model has two layers that are proved equal.

- **Values.** `HeartbeatModel` gives one tick as a function of the board, the drained batch and the choices made by the
  environment: clock readings, generated session names, engine readiness and the iteration order of the hash maps.
  `Runs` makes whole runs of it. A step is an arrival on either channel, an outside `bind_session`, a tick, or the engine
  turning the next job into a message; arrivals may come between any two steps. `Legal` says that a sequence of steps
  can happen and `After` is where it leads. `Audit` is history that the program does not keep; nothing the model does
  depends on it.
- **Objects.** `Sessions.SessionPool`, `Pendings.PendingRequestStore`, `Channels.CopyChannel`, the classes of
  `Heartbeats` and `Service.TtsService` change their fields in place as the program does, with its loops. Each method
  is proved against the value layer, up to `TtsService.Iterate`, which is shown to be a legal stretch of a run.

`Journals` is the reference the tick is compared with. It names what each message brings about by the fields of the
board that the message meets, gives every entry and every session an automaton of its own over these events, and
gathers the outputs from them. `EveryRunIsRecorded` proves that every run agrees with it; `Recency` adds the order of
the pool's list, and `Contents` says what requests, chunks and clock readings become because of it.

The theorems about runs are in `Journals`, `Recency`, `Contents`, `Ledger`, `Listings` and `Evolution` (content,
conservation, the pool's list, and the evolution rule, with no assumption at all), `Delivery` and `Load` (when only the
engine loop reports on jobs), `Failures`, `Binding` and `Starvation` (failed, cancelled and unbound upstream requests,
and what their slots lead to), `Leases` (one session, when its own name is new), `Naming` (the pool, when all generated
names are new), `Chronology` (least recent use, when the clock does not go back), `MixedRouting` and `Shutdown` (what
one id on both routes leads to), and `Routing`, `UnboundRouting` and `SweptRouting` (which configurations are exposed to
it: with binding steps, without, and with clocks that start at their epoch).

Assumptions appear in the statements and nowhere else: `EngineReports` for "completion and failure messages come only
from the engine loop", `NewNameRun` and `NewNamesRun` for "this session name, or every one, is generated only once",
`OnwardRun` for "clock readings do not go back", `multiset(asked)[id] <= 1` for "the id is requested once", and
`Unmixed` for "no id was routed both ways". The last follows when every id is requested at most once
(`UniqueIdsAreUnmixed`) and when the configuration has a single route (`OneRouteUnmixed`).

## What came out

- Delivery is at most once per request, the inflight counter is exact and bounded, and a failure always wins over a
  final chunk, as long as request ids are not reused on both routes.
- If an id is used for an upstream request and then for local ones, a late chunk can finish a local entry. Three requests
  lead to four client writes, the counter wraps to the largest 64-bit word, and however the service goes on, it never
  makes another job, frame or client write (`MixedRouting.OneIdBothWays`). `SynthesizeClient` does reuse ids.
- Exactly the configurations that can have an upstream and a local request open at once are exposed to this: those with
  an engine, a request high watermark above one, a queue high watermark above zero and room for a session. For each of
  them some run overdelivers, one leaves the counter wrong and one decrements zero; for all others no run does, whatever
  ids are used (`UnboundRouting.UnboundDeliveryIsExact`, `UnboundLoadIsExact`, `UnboundUnderflowIsExact`). If binding
  steps are made as well, two requests are enough and a request high watermark of one is exposed too
  (`MixedRouting.BoundBothWays`, `Routing.DeliveryIsExact`, `LoadIsExact`, `UnderflowIsExact`).
- None of this can happen while every tick's clock has reached `max_lifetime`, in any configuration, because such ticks
  empty the pool (`SweptRouting.SweptDelivery`, `SweptLoad`, `SweptUnderflow`). So with clocks that start at their epoch
  a `max_lifetime` above zero is part of the exact condition (`SweptRouting.EpochDeliveryIsExact`, `EpochLoadIsExact`,
  `EpochUnderflowIsExact`).
- `bind_session` is called by no part of the service. An id that it never names and that never went local is never
  emitted, whatever happens to other ids (`Binding.NeverEmittedUnbound`). If no id has been routed both ways by the time
  as many upstream requests have been accepted as the high watermark, then however the service goes on without binding,
  and whatever ids are used, no job or frame is ever made again (`Starvation.UnboundSlotsStarve`). With binding, the
  requests written by a tick's scan are exactly the streaming ones whose final chunk has come
  (`Binding.ScanWritesReady`).
- A failed or cancelled upstream request never gives its inflight slot back (`Failures.FailureWins`). If no id has been
  routed both ways by the time such slots fill the high watermark, no job or frame is ever made again, even if the lost
  requests are retried (`Starvation.AbandonedSlotsStarve`).
- Every board and every output is fixed by the messages handled: entries, sessions, the pool's list, jobs, frames and
  client writes are functions of the run's events (`Journals.EveryRunIsRecorded`, `Recency.EveryListIsRecorded`), down to
  the text and voice of each job (`Contents.JobsCarryRequests`) and the bytes of each write (`Contents.WritesAreExact`).
- The heartbeat leaves a session's creation time at the clock's epoch, so an unbroken session is closed for its age by
  exactly those ticks whose clock has reached `max_lifetime`, however new it is (`Evolution.LifetimeSweep`).
- Adding a session under an id that is already pooled lists it twice; the pool stays consistent exactly when there is
  no room or the id is new (`Sessions.AddConsistent`). Even so list and map agree and a ready session is listed once in
  every run (`Listings.PoolStaysListed`), which is all that the evolution rule needs.

## Model

| member | source | states |
|---|---|---|
| Ledger.EveryRunBalances | src/heartbeat/heartbeat.h:73-313 | in every run, whatever the ids and senders: each request asked for is still queued or became exactly one of a job, a TaskContinue or a published denial; inflight is jobs plus TaskContinue frames minus client writes modulo 2^64; every pending byte count is the length of its audio, every write is final and counts its bytes, and the byte counter is the total written modulo 2^64; the queue counter stays zero |
| Journals.EveryRunIsRecorded | src/heartbeat/heartbeat.h:73-313 | in every run, with no assumption on ids, clocks, names or senders: each pending entry and each pooled session is what an automaton of its own, written on the fields, makes of the events of the run, one event for each message handled, entry emitted, pass made and binding; jobs, frames, client writes and published failures are gathered from the same events in order |
| Journals.MessageStep | src/heartbeat/heartbeat.h:79-95 | on any board one message moves every entry, every session and the outputs as its event says, and the event is decided by the fields of the board the message meets |
| Journals.AskStep | src/heartbeat/heartbeat.h:119-185 | a request is refused, taken by the engine or taken by a ready or a new session; entry, session, job and frames follow from the fields of the request |
| Journals.ChunkStep | src/heartbeat/heartbeat.h:242-252 | a chunk is heard by the request its session is serving and by nothing else |
| Journals.FailStep | src/heartbeat/heartbeat.h:257-279 | TaskFailed and Disconnected fail exactly the entries of their session, the first with its status, and break or remove that session |
| Journals.EmitStep | src/heartbeat/heartbeat.h:289-313 | an emission writes the entry field by field, removes it and drains its session, whatever state that is in |
| Journals.SweepRecorded | src/heartbeat/evolution_engine.h:29-62 | a pass removes exactly the failed and cancelled entries and exactly the sessions that are broken, past the maximum lifetime, or ready and idle for the idle timeout |
| Recency.EveryListIsRecorded | src/databoard/session_pool.h:48-158 | in every run, even if names repeat and clocks go back, the pool's list is exactly what the events make of it: hand-outs and connections move a session to the front, a new one is put there, a pass strikes out what it removes and keeps the order of the rest |
| Contents.EveryRequestIsRouted | src/heartbeat/heartbeat.h:119-185 | every request of every tick of every run: refused with the backpressure reason exactly when a counter has reached its watermark; otherwise a job if and only if there is a ready engine and the backend is local, or is auto with local preferred; otherwise one frame on a ready session if there is one; otherwise two frames on a new session if there is room; otherwise refused for want of a session; and the published level is 2, 1 or 0 accordingly |
| Contents.AskRouted | src/heartbeat/heartbeat.h:119-185 | the same of one request on any board whose list and map agree |
| Contents.EveryRequestIsDecidedOnce | src/heartbeat/heartbeat.h:119-185 | in every run each request sent, with its whole content, is still queued or has been refused or accepted exactly once |
| Contents.JobsCarryRequests | src/heartbeat/heartbeat.h:149-155 | in every run the jobs are, one by one and in order, the requests accepted for the engine, with their id, text and voice and with their speed if positive, else 1; those requests were all sent |
| Contents.ChunksAdd | src/heartbeat/heartbeat.h:242-252 | on any board a chunk, final or not, whose session serves a pending request adds its decoded bytes to that entry, or-s finality, replaces the usage count and leaves every other entry alone |
| Contents.OnlyChunksAdd | src/heartbeat/heartbeat.h:79-95 | every other message leaves the audio, finality and usage of an entry that stays alone, unless it asks for that id |
| Contents.EntryHolds | src/heartbeat/heartbeat.h:242-252 | by the events of any run an entry holds the decoded bytes of the chunks heard since it was opened, in order, is final exactly when one of them was, and has the usage of the last |
| Contents.EveryScanIsExact | src/heartbeat/heartbeat.h:97-98 | in every tick of every run an entry is emitted if and only if the batch leaves it streaming with its final chunk received |
| Contents.EveryEmissionIsTrue | src/heartbeat/heartbeat.h:97-98 | every entry emitted in a run is what its automaton made of the events before, streaming and final |
| Contents.WritesAreExact | src/heartbeat/heartbeat.h:289-313 | every client write of every run comes from one event: it is the report of a local job field by field, or carries exactly the decoded chunks that sessions brought while serving its request, in order, since its entry was opened, is final, counts its bytes, and has the rate, channels and format of the request it was last taken for and the usage of its last chunk |
| Contents.WellEncodedAudio | src/heartbeat/heartbeat.h:242-252 | when chunks encode byte strings, the audio they amount to is those bytes in order |
| Contents.WritesAreOriginal | src/heartbeat/heartbeat.h:289-313 | so in every run an upstream write whose own chunks are well encoded carries their original bytes in order |
| Contents.SessionsServeTheirLast | src/heartbeat/heartbeat.h:164-170 | in every run a pooled session names the request it was last handed out for, and the activity time of a ready session is the clock reading when it last connected |
| Ledger.QuiescentAfterTick | src/heartbeat/heartbeat.h:97-102 | after every tick of every run no pending entry is failed, cancelled or ready to emit and no pooled session is errored or closed |
| Ledger.NextSound | src/heartbeat/heartbeat.h:73-117 | every step of the service keeps the ledger, the byte counts and the absence of broken sessions |
| Ledger.EventsAreQuiet | src/heartbeat/heartbeat.h:229-281 | an upstream event emits nothing, publishes nothing and moves no counter |
| Delivery.AtMostOnce | src/heartbeat/heartbeat.h:73-313 | an id requested at most once gets at most one client write in the whole run, on either route, whatever cancellations, failures, repeated final chunks and reconnections occur |
| Delivery.WritesWithinRequests | src/heartbeat/heartbeat.h:119-220 | an id never routed both ways has writes plus its pending entry within the number of times it was accepted, and that within the number of times it was asked for |
| UnboundRouting.UnboundDeliveryIsExact | src/heartbeat/heartbeat.h:119-220 | every run without a binding step gives every id at most as many writes as it was asked for if and only if the configuration lacks one of four things: an engine, a request high watermark above one, a queue high watermark above zero, room for a session |
| UnboundRouting.UnboundLoadIsExact | src/heartbeat/backpressure_controller.h:22-38 | in every run without a binding step pending requests <= inflight = accepted requests not yet written <= high watermark, whatever the ids, if and only if the configuration lacks one of those four |
| UnboundRouting.UnboundUnderflowIsExact | src/databoard/metrics_snapshot.h:14 | no tick of any run without a binding step decrements a zero counter, whatever the ids, if and only if the configuration lacks one of those four |
| UnboundRouting.LowSafe | src/heartbeat/backpressure_controller.h:22-38 | with a request high watermark of one, every run without a binding step keeps every id's writes within its requests and the load bounded, whatever the ids |
| SweptRouting.SweptDelivery | src/heartbeat/evolution_engine.h:41-45 | in every run whose ticks all read a clock that has reached the maximum lifetime, with binding steps or without, no id gets more writes than it was asked for, in any configuration |
| SweptRouting.SweptLoad | src/heartbeat/evolution_engine.h:41-45 | in every such run pending requests <= inflight = accepted requests not yet written <= high watermark |
| SweptRouting.SweptUnderflow | src/heartbeat/evolution_engine.h:41-45 | no tick after such a run decrements a zero counter |
| SweptRouting.EpochDeliveryIsExact | src/heartbeat/heartbeat.h:119-220 | over runs without a binding step whose clock readings are not before the epoch, every id gets at most as many writes as it was asked for if and only if the configuration lacks one of those four or a maximum lifetime above zero |
| SweptRouting.EpochLoadIsExact | src/heartbeat/backpressure_controller.h:22-38 | the same condition decides the load bound over those runs |
| SweptRouting.EpochUnderflowIsExact | src/databoard/metrics_snapshot.h:14 | the same condition decides whether any of their ticks decrements a zero counter |
| Routing.DeliveryIsExact | src/heartbeat/heartbeat.h:119-220 | every run, with or without binding steps, gives every id at most as many writes as it was asked for if and only if the configuration lacks an engine, a request high watermark above zero, a queue high watermark above zero or room for a session |
| Routing.LoadIsExact | src/heartbeat/backpressure_controller.h:22-38 | the same condition decides whether in every run, with or without binding steps, pending requests <= inflight = accepted requests not yet written <= high watermark |
| Routing.UnderflowIsExact | src/databoard/metrics_snapshot.h:14 | the same condition decides whether no tick of any run, with or without binding steps, decrements a zero counter |
| Routing.OneRouteUnmixed | src/heartbeat/heartbeat.h:222-227 | a configuration that lacks an engine, a request or queue high watermark above zero or room for a session never routes an id both ways |
| Delivery.ReportsInOrder | src/main.cpp:148-174 | in every run the local writes followed by the reports still queued are the engine's results, one for each job it has run, in job order with their content; all other writes are emitted upstream ones |
| Delivery.LocalExactlyOnceInOrder | src/main.cpp:148-174 | if nothing went upstream, all client writes followed by the reports still queued are the engine's results in job order |
| Load.BoundedLoad | src/heartbeat/backpressure_controller.h:22-38 | while no id was routed both ways: pending requests <= inflight = accepted requests not yet written <= high watermark |
| Load.NoUnderflow | src/heartbeat/heartbeat.h:187-220 | in every tick of such a run no decrement of inflight meets zero, neither while messages are handled nor while requests are emitted |
| Load.TickWithin | src/heartbeat/heartbeat.h:73-102 | a tick keeps the counter exact and within the high watermark |
| Load.UniqueIdsAreUnmixed | src/entry/tts_service_impl.h:194-197 | ids that are each requested at most once are never routed both ways |
| Failures.FailureWins | src/heartbeat/heartbeat.h:257-287 | an upstream request asked for once that is failed or cancelled by any message of a batch is gone when the tick ends, never gets a client write, then or later, whatever chunks the batch holds, and is abandoned: accepted, gone and not written |
| Failures.AbandonedStays | src/heartbeat/evolution_engine.h:53-59 | an abandoned request stays abandoned however the run goes on without asking for it again |
| Failures.HandleSilent | src/heartbeat/heartbeat.h:79-95 | a message that neither asks for an id nor reports on it counts nothing for the id, and a missing or failed entry stays missing or failed |
| Failures.FailureMarks | src/heartbeat/heartbeat.h:257-287 | TaskFailed, Disconnected and cancellation leave the request they concern failed or cancelled |
| Starvation.AbandonedSlotsStarve | src/heartbeat/evolution_engine.h:53-59 | slots of upstream requests that are gone unwritten stay counted in inflight, and when they fill the high watermark with no id routed both ways so far, in every continuation in which only the engine loop reports, even one that asks for those ids again, no job or frame is ever made |
| Binding.NeverEmittedUnbound | src/databoard/pending_request_store.h:78-109 | in every run, an id that no bind_session step names and that never went local is never emitted, whatever other ids do |
| Binding.NeverWrittenUnbound | src/databoard/pending_request_store.h:78-109 | when only the engine loop reports, such an id gets no client write |
| Binding.NothingUpstreamUnbound | src/databoard/pending_request_store.h:78-109 | in a run without bind_session in which no id was routed both ways every client write is a local one |
| Starvation.UnboundSlotsStarve | src/heartbeat/heartbeat.h:119-127 | without binding steps and with no id routed both ways so far the accepted upstream requests never exceed inflight, and when there are as many as the high watermark, in every such continuation, whatever ids it uses, no job or frame is ever made |
| Binding.ScanWritesReady | src/heartbeat/heartbeat.h:97-98 | the emit scan adds one write for each streaming request with its final chunk and none for any other |
| Listings.PoolStaysListed | src/databoard/session_pool.h:72-196 | in every run, whatever the names and the clock, list and map hold the same ids, a ready session is listed once, and every creation time is the epoch of the clock |
| Naming.PoolStaysConsistent | src/databoard/session_pool.h:72-196 | in every run in which every generated session name is new, whatever the clock, the list is a duplicate-free permutation of the map's keys, no longer than the maximum |
| Chronology.ReadyInOrder | src/databoard/session_pool.h:72-196 | in every run whose clock does not go back, whatever the names, ready sessions stand in order of activity and none has been active after the clock |
| Chronology.PoolStaysHealthy | src/databoard/session_pool.h:72-196 | with both, the pool has its whole invariant |
| Chronology.EveryReuseIsOldest | src/heartbeat/message_processor.h:66-71 | in every run whose clock does not go back, whatever the names, at any message of any tick the session handed out is a ready one of least activity time, and another is used only when none is ready |
| Leases.FrameGrammar | src/heartbeat/heartbeat.h:158-185 | in every run in which the name of a session is generated only once, whatever other names and the clock do, its frames are none, or one TaskStart followed by one or more TaskContinue |
| Leases.SessionLease | src/heartbeat/message_processor.h:62-80 | in every such run two hand-outs of the session have a Connected event of it between them |
| Leases.HandOutsSeparated | src/heartbeat/message_processor.h:62-80 | a history in which the session is handed out only when it is not on lease has that separation |
| Leases.AcquireTidy | src/heartbeat/message_processor.h:62-80 | a hand-out leaves list and map in agreement and the session in use; a session whose own name is new is handed out only when it was not on lease, and marked as reused exactly when it was handed out before |
| Naming.ConsistentBeforeEvolution | src/heartbeat/heartbeat.h:97-100 | in every such run the pool an evolution pass begins with is consistent and holds only sessions that were handed out |
| Evolution.EvolveFollowsRule | src/heartbeat/evolution_engine.h:27-62 | after a pass the sessions left are exactly those not (changed and broken), not too old and not (ready and idle too long), with their records and relative order; the requests left are exactly those not failed or cancelled |
| Evolution.SessionNotices | src/heartbeat/evolution_engine.h:31-59 | each removed session gets exactly one notice in the three session phases, naming the first of broken, lifetime and idle that applies, and each removed request one notice after them |
| Evolution.EvolveOnceIsEnough | src/heartbeat/evolution_engine.h:27-62 | a second pass with the same inputs at the same time gives no notice and changes nothing |
| Evolution.EvolvedPool | src/heartbeat/evolution_engine.h:31-51 | the three removals in a row equal one removal of everything the rule does not keep |
| Evolution.EveryTickFollowsRule | src/heartbeat/heartbeat.h:97-101 | in every tick of every run the sessions left are exactly those the rule keeps of the board after the emit scan, with their records and order, the requests left are those not failed or cancelled, and the notices added are one for each removed session with the first reason that applies and one for each removed request |
| Evolution.LifetimeNotice | src/heartbeat/evolution_engine.h:41-45 | a pass gives an unbroken session the lifetime notice if and only if its lifetime has expired |
| Evolution.LifetimeSweep | src/heartbeat/message_processor.h:73-76 | in every tick of every run an unbroken session gets the lifetime notice if and only if the tick's clock has reached the maximum lifetime, however new the session is, and then the pool is left empty |
| Evolution.NoticeMeans | src/heartbeat/evolution_engine.h:29-51 | a pass gives a session a notice with a given reason if and only if the rule removes it and that is its first reason |
| Evolution.IdleNotice | src/heartbeat/evolution_engine.h:47-51 | a pass gives an unbroken session that is not too old the idle notice if and only if it is ready and its last activity lies at least the idle timeout back |
| Evolution.IdleSweep | src/databoard/session_pool.h:160-173 | in every tick of every run before the maximum lifetime, a session that is not broken gets the idle notice if and only if it is ready and its last activity lies at least the configured idle timeout back |
| MixedRouting.OneIdBothWays | src/heartbeat/heartbeat.h:119-156 | in every configuration that can have both kinds of request open at once, without any binding step, three requests under one id can get four client writes and wrap inflight to 2^64 - 1; and in every continuation in which only the engine loop reports, no job, frame or write is made again |
| MixedRouting.BoundBothWays | src/heartbeat/heartbeat.h:119-156 | with a binding step two requests can get three writes, in every configuration that can serve both routes, with the same end |
| MixedRouting.WholeUnboundRun | src/heartbeat/heartbeat.h:73-313 | the twelve steps that lead there without a binding step are a legal run |
| MixedRouting.WholeRun | src/heartbeat/heartbeat.h:73-313 | the ten steps that lead there with one are a legal run |
| Shutdown.StaysShut | src/heartbeat/heartbeat.h:119-127 | with nothing streaming, no report to come and inflight at the high watermark or above, no continuation adds a job, a frame or a write |
| MixedRouting.LateTick | src/heartbeat/heartbeat.h:129-156 | in the tick that takes a local request, a late final chunk on the old session completes its entry, which is written at once while its job is still to come |
| MixedRouting.ReportTick | src/heartbeat/heartbeat.h:187-203 | the report on that job writes the request again and counts down again, below zero if nothing is in flight |
| MixedRouting.QuietEvolve | src/heartbeat/evolution_engine.h:27-62 | a pass that has nothing to remove by the rule changes nothing but the clock reading |
| Heartbeats.Heartbeat.Tick | src/heartbeat/heartbeat.h:73-102 | both channels are emptied, the new state is the model's tick of the drained batch, and the change set is what the tick added |
| Heartbeats.Heartbeat.Beat | src/heartbeat/heartbeat.h:80-100 | handling the batch, the emit scan and the evolution pass together are the model's tick for some true enumeration of the hash maps |
| Heartbeats.Heartbeat.ProcessBatch | src/heartbeat/heartbeat.h:80-95 | the loop over the batch is the model's fold of the handlers, from empty change sets |
| Heartbeats.Heartbeat.HandleMessage | src/heartbeat/heartbeat.h:81-94 | each kind of message goes to its own handler |
| Heartbeats.Heartbeat.HandleRequest | src/heartbeat/heartbeat.h:119-185 | the new state is the model's: denial, local job or upstream binding |
| Heartbeats.Heartbeat.StartLocal | src/heartbeat/heartbeat.h:130-156 | the new state is the model's for a local job, with a new or a retuned entry |
| Heartbeats.Heartbeat.StartUpstream | src/heartbeat/heartbeat.h:158-185 | the new state is the model's for an upstream binding, or one published failure when no session is to be had |
| Heartbeats.Heartbeat.HandleResponse | src/heartbeat/heartbeat.h:229-281 | the new state is the model's for each of the six event kinds |
| Heartbeats.Heartbeat.HandleAudioChunk | src/heartbeat/heartbeat.h:242-252 | the decoded bytes are appended to the request the session is serving, if it is still pending |
| Heartbeats.Heartbeat.FailRequests | src/heartbeat/heartbeat.h:257-275 | exactly the session's requests become failed, with the status on TaskFailed and without it on Disconnected |
| Heartbeats.Heartbeat.Deliver | src/heartbeat/heartbeat.h:198-219 | the write is added, its bytes and its slot are accounted for and its entry is gone |
| Heartbeats.Heartbeat.EmitReady | src/heartbeat/heartbeat.h:97-98 | the ready requests, each once in some order, are emitted by the model's rule |
| Heartbeats.Heartbeat.EmitCompleted | src/heartbeat/heartbeat.h:289-313 | the new state is the model's for one emitted request |
| Heartbeats.Heartbeat.AddCloses | src/heartbeat/heartbeat.h:101 | the notices are added in order |
| Heartbeats.Heartbeat.EvolveBoard | src/heartbeat/heartbeat.h:100-101 | the new state is the model's evolution for some true enumeration of the hash maps |
| Heartbeats.Heartbeat.constructor | src/heartbeat/heartbeat.h:36-56 | a new heartbeat has emitted and published nothing |
| Heartbeats.MessageProcessor.DrainBatch | src/heartbeat/message_processor.h:31-38 | the batch is the queued requests and then the queued events, in arrival order, and both channels are empty |
| Heartbeats.MessageProcessor.AcquireOrCreateSession | src/heartbeat/message_processor.h:62-80 | the least recently used ready session is reused, else a new one is added, else nothing changes and none is given |
| Heartbeats.MessageProcessor.BindRequest | src/heartbeat/message_processor.h:82-93 | a fresh entry awaiting the session replaces any entry of that id and one slot is taken |
| Heartbeats.DataEvolutionEngine.EvolveOnce | src/heartbeat/evolution_engine.h:27-62 | pool, requests and notices are the model's, for true enumerations of the changed set and the two maps |
| Heartbeats.DataEvolutionEngine.CloseBroken | src/heartbeat/evolution_engine.h:31-39 | exactly the changed sessions that are errored or closed are removed, with one notice each |
| Heartbeats.DataEvolutionEngine.CloseAll | src/heartbeat/evolution_engine.h:41-51 | the listed sessions are removed, with one notice each, in order |
| Heartbeats.DataEvolutionEngine.SweepTerminal | src/heartbeat/evolution_engine.h:53-59 | exactly the failed and cancelled requests are removed, with one notice for each one's session; no counter moves |
| Heartbeats.BackpressureController.Evaluate | src/heartbeat/backpressure_controller.h:22-38 | admits exactly below both high watermarks, records level 2, 1 or 0, and reports the larger count |
| Heartbeats.ChangeSetBuilder.Collect | src/heartbeat/changeset_builder.h:29-33 | the collected outputs are handed over and the builder is empty; nothing is lost or repeated over all collections |
| Heartbeats.ChangeSetBuilder.AddFrame | src/heartbeat/changeset_builder.h:13-15 | the frame is appended and nothing else changes |
| Heartbeats.ChangeSetBuilder.AddWrite | src/heartbeat/changeset_builder.h:16-18 | the write is appended and nothing else changes |
| Heartbeats.ChangeSetBuilder.AddClose | src/heartbeat/changeset_builder.h:19-21 | the notice is appended and nothing else changes |
| Heartbeats.ChangeSetBuilder.AddJob | src/heartbeat/changeset_builder.h:25-27 | the job is appended and nothing else changes |
| Heartbeats.MetricsSnapshot.IncInflight | src/databoard/metrics_snapshot.h:13 | adds one modulo 2^64 and changes no other counter |
| Heartbeats.MetricsSnapshot.DecInflight | src/databoard/metrics_snapshot.h:14 | subtracts one modulo 2^64 and changes no other counter |
| Heartbeats.MetricsSnapshot.AddAudioBytes | src/databoard/metrics_snapshot.h:18 | adds the bytes modulo 2^64 and changes no other counter |
| Heartbeats.MetricsSnapshot.SetBackpressureLevel | src/databoard/metrics_snapshot.h:22 | records the level and changes no counter |
| Heartbeats.DataBoard.constructor | src/databoard/data_board.h:14-19 | a new board has no session, no request and zero counters |
| Service.TtsService.Iterate | src/main.cpp:143-176 | one iteration of the heartbeat thread is a legal stretch of a run: one tick and then one step for each of its jobs; the writes handed over are those the tick added |
| Service.TtsService.RunJobs | src/main.cpp:148-174 | the job loop is that many engine steps, in job order, each with whatever the engine makes of that job at that time |
| Service.TtsService.RunOneJob | src/main.cpp:148-173 | a job becomes exactly one failure or completion message on the request channel, or none without an engine |
| Service.JobStepsLegal | src/main.cpp:148-174 | as many engine steps as there are jobs left to do can always be made |
| Service.TtsService.SubmitRequest | src/framework/copy_channel.h:28-35 | one arrival on the request channel |
| Service.TtsService.UpstreamEvent | src/framework/copy_channel.h:28-35 | one arrival on the event channel |
| Service.TtsService.BindSession | src/databoard/pending_request_store.h:78-84 | one outside binding step |
| Service.TtsService.constructor | src/main.cpp:142 | the service begins in the start state of the runs |
| Sessions.LeastRecentlyUsed | src/databoard/session_pool.h:95-105 | when list and map agree and ready sessions stand in order of activity, the session found is ready and no ready one has an earlier time; none is found only when none is ready |
| Sessions.IdleExpiry | src/databoard/session_pool.h:160-173 | the idle-expired sessions collected are exactly the ready ones whose last activity lies at least the idle timeout back, each once, and in an ordered pool an initial segment of the ready sessions read from the back, their activity times never falling |
| Sessions.IdleIsOldestFirst | src/databoard/session_pool.h:160-173 | in an ordered pool the ready sessions read from the back have activity times that never fall, and idle expiry takes an initial segment of them |
| Sessions.AddConsistent | src/databoard/session_pool.h:72-79 | adding keeps list and map in agreement without duplicates exactly when there is no room or the id is new |
| Sessions.AddListed | src/databoard/session_pool.h:72-79 | adding a session that is not ready, under any id, keeps list and map in agreement with ready sessions listed once |
| Sessions.FrontListed | src/databoard/session_pool.h:193-196 | moving a known session to the front keeps that agreement |
| Sessions.QuietListed | src/databoard/session_pool.h:125-148 | a record change that makes nothing ready keeps that agreement |
| Sessions.RemoveListed | src/databoard/session_pool.h:150-158 | removing sessions keeps that agreement |
| Sessions.FrontConsistent | src/databoard/session_pool.h:193-196 | moving a known session to the front keeps list and map in agreement |
| Sessions.QuietConsistent | src/databoard/session_pool.h:125-148 | changing the record of a known session keeps list and map in agreement |
| Sessions.RemoveConsistent | src/databoard/session_pool.h:150-158 | removing sessions keeps list and map in agreement |
| Sessions.AddChronological | src/databoard/session_pool.h:72-79 | adding a session that is not ready keeps the ready ones in order of activity |
| Sessions.FrontChronological | src/databoard/session_pool.h:107-123 | moving a session to the front with the newest time keeps the ready ones in order of activity |
| Sessions.QuietChronological | src/databoard/session_pool.h:125-148 | a record change that makes nothing ready and moves no ready session's time keeps that order |
| Sessions.RemoveChronological | src/databoard/session_pool.h:150-158 | removing sessions keeps that order |
| Sessions.RemoveTwice | src/databoard/session_pool.h:155-158 | two removals are one removal of the union |
| Sessions.SessionPool.FindIdleLeastRecentlyUsed | src/databoard/session_pool.h:95-105 | the ready session nearest the end of the list, which in a consistent ordered pool is a ready one of least activity time |
| Sessions.SessionPool.CollectIdleExpired | src/databoard/session_pool.h:160-173 | the idle-expired sessions of the list, read from its end; when list and map agree, exactly the ready ones whose last activity lies at least the idle timeout back |
| Sessions.SessionPool.CollectLifetimeExpired | src/databoard/session_pool.h:175-182 | exactly the sessions past their lifetime, each once |
| Sessions.SessionPool.Add | src/databoard/session_pool.h:72-79 | refuses exactly when full; otherwise the record is stored and its id put in front |
| Sessions.SessionPool.MoveToFront | src/databoard/session_pool.h:193-196 | the id is in front once and the others keep their order |
| Sessions.SessionPool.TouchActive | src/databoard/session_pool.h:81-87 | new time and front place for a known id, else nothing |
| Sessions.SessionPool.MarkActive | src/databoard/session_pool.h:107-114 | streaming, new time and front place for a known id, else nothing |
| Sessions.SessionPool.MarkReady | src/databoard/session_pool.h:116-123 | ready, new time and front place for a known id, else nothing |
| Sessions.SessionPool.MarkIdle | src/databoard/session_pool.h:132-140 | ready, no current request, new time and front place for a known id, else nothing |
| Sessions.SessionPool.MarkDraining | src/databoard/session_pool.h:125-130 | draining, in the same place, for a known id, else nothing |
| Sessions.SessionPool.MarkErrored | src/databoard/session_pool.h:142-148 | errored with its reason, in the same place, for a known id, else nothing |
| Sessions.SessionPool.MarkClosed | src/databoard/session_pool.h:150-158 | the id leaves both map and list |
| Sessions.SessionPool.SetCurrentRequest | src/heartbeat/heartbeat.h:168-170 | the record of a known id names the request, else nothing changes |
| Sessions.SessionPool.constructor | src/databoard/session_pool.h:52-55 | a new pool is empty |
| Pendings.PendingRequestStore.AppendChunk | src/databoard/pending_request_store.h:86-98 | bytes, count, usage and finality of a known entry are updated, finality never taken back; an unknown id is reported and changes nothing |
| Pendings.PendingRequestStore.FindReadyToEmit | src/databoard/pending_request_store.h:100-109 | exactly the streaming entries with their final chunk, each once |
| Pendings.PendingRequestStore.CollectBySession | src/databoard/pending_request_store.h:118-125 | exactly the entries that name the session, each once |
| Pendings.PendingRequestStore.CollectTerminal | src/databoard/pending_request_store.h:127-137 | exactly the failed and cancelled entries, each once |
| Pendings.PendingRequestStore.Add | src/databoard/pending_request_store.h:52-58 | the entry is stored under its id, replacing any other |
| Pendings.PendingRequestStore.Remove | src/databoard/pending_request_store.h:66-69 | the id has no entry and all others stay |
| Pendings.PendingRequestStore.SetState | src/databoard/pending_request_store.h:71-76 | the state of a known entry changes and nothing else |
| Pendings.PendingRequestStore.BindSession | src/databoard/pending_request_store.h:78-84 | a known entry names the session and is streaming |
| Pendings.PendingRequestStore.SetStatus | src/heartbeat/heartbeat.h:261-262 | code and message of the entry change and nothing else |
| Pendings.PendingRequestStore.constructor | src/databoard/pending_request_store.h:50-51 | a new store is empty |
| Channels.CopyChannel.Send | src/framework/copy_channel.h:28-45 | the value goes to the end of the queue unless the channel is closed, which is reported |
| Channels.CopyChannel.Recv | src/framework/copy_channel.h:47-65 | takes the oldest value, and gives none exactly when the queue is empty, closed or not |
| Channels.CopyChannel.SwapOutAll | src/framework/copy_channel.h:79-85 | everything queued is appended in arrival order and the queue is empty |
| Channels.CopyChannel.Close | src/framework/copy_channel.h:92-98 | the channel is closed and keeps what is queued |
| Channels.CopyChannel.constructor | src/framework/copy_channel.h:20-26 | a new channel is open and empty |
| HexCodec.RoundTrip | src/upstream/hex_codec.h:11-39 | decoding an encoding gives the bytes back (section 8 of RFC 4648, lower-case output) |
| HexCodec.WellFormedMeans | src/upstream/hex_codec.h:12-25 | a text is accepted exactly when its length is even and all its characters are hexadecimal digits of either case |
| HexCodec.DecodedAt | src/upstream/hex_codec.h:18-26 | byte k of a well-formed text is its digits 2k and 2k + 1, the high one first, and there is a byte for every pair |
| HexCodec.HexDecode | src/upstream/hex_codec.h:11-28 | the bytes of a well-formed text and no bytes for any other |
| HexCodec.HexEncode | src/upstream/hex_codec.h:30-39 | two digits for each byte, the high one first |
| HexCodec.NibbleMeans | src/upstream/hex_codec.h:12-17 | a character has a value below sixteen exactly when it is that digit in lower or upper case |
| Resampler.ResampleLinear | src/local/audio_resampler.cpp:59-78 | every output is the input's piecewise linear interpolation at its position, held at the last sample, rounded to the nearest integer with ties to the even one; the loop reads only inside the input |
| Resampler.Interpolates | src/local/audio_resampler.cpp:67-76 | an output times the output rate is within half the rate of the weighted mean of its two neighbours, and even at a tie |
| Resampler.RampsStayOnLine | src/local/audio_resampler.cpp:67-76 | an arithmetic ramp is reproduced up to rounding at every position between two samples |
| Resampler.Resampled | src/local/audio_resampler.cpp:62-64 | the output length is the exact ceiling of the scaled length, or the input's when it is empty or the rates agree |
| Resampler.OutLength | src/local/audio_resampler.cpp:63-64 | the exact ceiling |
| Resampler.RoundHalfEven | src/local/audio_resampler.cpp:75 | a nearest integer, the even one at a tie |
| Resampler.LeftInBounds | src/local/audio_resampler.cpp:68-71 | every input position read is inside the input |
| Resampler.NeighboursBound | src/local/audio_resampler.cpp:69-75 | every output lies between its two neighbours, so clamping changes nothing |
| Resampler.ResampledRises | src/local/audio_resampler.cpp:67-76 | a non-decreasing signal stays non-decreasing through interpolation and rounding |
| Resampler.UpAndDown | src/local/audio_resampler.cpp:59-78 | upsampling by any whole factor and downsampling by it again gives back the signal, length included |
| Resampler.OnGrid | src/local/audio_resampler.cpp:68-75 | at a whole input position the output is the sample itself |
| Timers.PriorityTimer.PopExpired | src/framework/priority_timer.h:44-58 | the entries returned are exactly the due ones not dropped, strictly sorted by deadline and insertion; no due entry stays; every scheduled entry is in the heap, returned once or skipped, and only optional ones are skipped |
| Timers.PriorityTimer.ScheduleAt | src/framework/priority_timer.h:33-37 | one new entry with the next insertion number, and the account of entries still holds |
| Timers.PriorityTimer.Top | src/framework/priority_timer.h:22-25 | the entry that comes before all others by deadline and then insertion |
| Timers.PriorityTimer.constructor | src/framework/priority_timer.h:28-30 | a new timer has no entry |
| Timers.DroppedMeans | src/framework/priority_timer.h:50-53 | a due optional entry is dropped exactly when it is at least threshold + 1 whole seconds late |
| EventBuses.EventBus.SubscribeErased | src/framework/event_bus.cpp:107-131 | one slot with a new id at the end of the type's bucket, owned by the new handle; live slots still match their owners one to one and every other sound handle stays sound |
| EventBuses.EventBus.DispatchSync | src/framework/event_bus.cpp:133-149 | calls exactly the slots of the type at the snapshot, each once, in subscription order, all of them owned then, whatever subscriptions the listeners make and release while they are called; and every handle is sound afterwards |
| EventBuses.EventBus.Unsubscribe | src/framework/event_bus.cpp:156-165 | the id leaves every bucket and all other slots keep their order |
| EventBuses.EventBus.constructor | src/framework/event_bus.cpp:99 | a new bus has no slot and no owner |
| EventBuses.ScopedSubscription.constructor | src/framework/event_bus.h:27-28 | a handle names the bus and the id it is given |
| EventBuses.ScopedSubscription.Empty | src/framework/event_bus.h:26 | a default handle owns nothing |
| EventBuses.ScopedSubscription.Reset | src/framework/event_bus.cpp:91-97 | the handle, empty or not, is empty afterwards; its slot alone is gone, live slots still match their owners one to one and every other sound handle stays sound |
| EventBuses.ScopedSubscription.MoveFrom | src/framework/event_bus.h:31-32 | the new handle owns what the old one owned, if anything, and the old one is empty; no slot changes and every other sound handle stays sound |
| EventBuses.ScopedSubscription.MoveAssign | src/framework/event_bus.h:33-36 | what the target owned, if anything, is released on its own bus and it owns what the source owned, if anything, on the source's bus; the source is empty; assigning to itself changes nothing; every other sound handle stays sound |
| EventBuses.ScopedSubscription.TakeOver | src/framework/event_bus.h:34 | an empty handle takes a subscription over without touching a slot, and every other sound handle stays sound |
| EventBuses.Observe | src/observability/event_logger.h:20-33 | assigning a new subscription to a handle, empty or not, makes it the owner of exactly one new slot and releases what it owned |
| EventBuses.SubscribeKeeps | src/framework/event_bus.cpp:125-129 | subscribing keeps every bucket in id order and every live id in exactly one slot, and the id is new |
| EventBuses.UnsubscribeKeeps | src/framework/event_bus.cpp:156-165 | unsubscribing keeps both and ends exactly that id |
| EventBuses.Without | src/framework/event_bus.cpp:161-163 | exactly the slots with another id |

## Left out

- The gRPC service, the response writer, the mediator service and the protobuf types: the model ends at the change set.
- Token verification, configuration, logging, the metrics collector, the admission gate, the voice catalogue and the
  text tables of enumerations: they would only add easy members.
- The JSON codec: a frame's payload is kept as the values that are encoded into it.
- The WebSocket transport and the upstream client: their events arrive as steps of the run.
- The local engine: what it makes of a job is an arbitrary value of each step.
- Threads, locks and shutdown: every locked method is one atomic step and runs have no end of service; channels are not
  closed during a run.
- Records are values stored in maps: a record obtained from `get` and written to later is modelled as a write to the
  map at that moment, so aliasing between such records is not captured.
- Counters for failures, connections and heartbeats, latency samples and the tick event: nothing in the core reads them.
- Times inside pending entries: nothing reads them.
- Watermarks are fixed for a run, and the queue counter stays zero because no part of the core sets it.
- 64-bit signed byte counts of one request, timer insertion numbers and subscription ids do not wrap in the model.
- Clocks: the pool reads the system clock itself while evolution uses an injected one; both are readings the environment
  chooses, and only the theorems of `Chronology` assume that all of them together never go back.
- Session names are "s-" and a text the environment chooses instead of sixteen hexadecimal digits of a random number.
- Reason texts of notices and failures are enumerations.
- Resampler: exact rational arithmetic stands for doubles, so the effect of their rounding on length and positions is
  not modelled; rates are positive, since the source gives no meaning to others.
- Downmixing and conversion between floating-point and 16-bit samples.
- Channels.CopyChannel.Recv: the wait is not modelled, only what happens when it is over, by arrival, closing or timeout.
- Timers.PriorityTimer.Top: the heap is a set of entries and the top is found by comparison, because the standard
  library's heap layout is not part of the source; tasks are names.
- EventBuses.EventBus.DispatchSync: listeners are identities and the result is the list of those called; what a listener
  does to the bus is one subscription or one release, and other threads do not act during the dispatch.
- The event bus's inbox, worker threads and destruction; event types are indices; a handle's destructor is its reset.
