/** The messages that travel on the two channels and the outputs one heartbeat tick hands over. */
module Messages {
  import opened Seqs

  type Id = string
  /** A steady-clock reading, in nanoseconds since the clock's epoch. */
  type Time = int
  type Byte = b: int | 0 <= b < 256

  /** Counters are `std::uint64_t` and wrap around. */
  const WORD: nat := 0x1_0000_0000_0000_0000

  datatype Backend = Auto | Local | Upstream
  datatype AudioFormat = Unspecified | Mp3 | Pcm | Flac | Wav
  datatype AudioSettings = AudioSettings(sampleRate: int, bitrate: int, format: AudioFormat, channel: int)
  datatype VoiceSettings = VoiceSettings(voiceId: string, speed: real, vol: real, pitch: int)
  datatype Request = Request(id: Id, text: string, model: string, voice: VoiceSettings,
                             audio: AudioSettings, backend: Backend)

  datatype WsKind = Connected | TaskStarted | AudioChunk | TaskFinished | TaskFailed | Disconnected
  datatype Response = Response(session: Id, kind: WsKind, audioHex: string, isFinal: bool,
                               usageCharacters: int, statusCode: int, statusMsg: string)

  /** What the local engine made of a job. */
  datatype Synthesis = Synthesis(pcm: seq<Byte>, sampleRate: int, channels: int, durationMs: int,
                                 statusCode: int, statusMsg: string)

  datatype Completion = Completion(id: Id, audio: seq<Byte>, sampleRate: int, channels: int, format: AudioFormat,
                                   usageMs: int, statusCode: int, statusMsg: string)

  datatype Message =
    | Ask(req: Request)
    | WsEvent(rsp: Response)
    | Cancel(cancelled: Id)
    | SynthComplete(done: Completion)
    | SynthFailed(failed: Id, statusCode: int, statusMsg: string)
  {
    /** Only the engine loop produces these two. */
    predicate IsDone() { SynthComplete? || SynthFailed? }
  }

  datatype Job = Job(id: Id, text: string, voiceId: string, speed: real)

  datatype Op = TaskStart | TaskContinue
  /** The JSON payload is kept as the values that are encoded into it. */
  datatype Payload = StartPayload(model: string, voice: VoiceSettings, audio: AudioSettings)
                   | ContinuePayload(text: string)
  datatype Frame = Frame(session: Id, op: Op, payload: Payload)

  datatype Write = Write(id: Id, audio: seq<Byte>, sampleRate: int, channels: int, format: AudioFormat,
                         isFinal: bool, cumulativeBytes: int, audioLengthMs: int,
                         statusCode: int, statusMsg: string)

  /** The fixed reason texts, as enumerations. */
  datatype CloseReason = EvolveSessionClosed | LifetimeExceeded | IdleTimedOut | RequestFailedOrCancelled
  datatype FailureReason = BackpressureAdmissionDenied | NoSessionAvailable
  datatype Close = Close(session: Id, reason: CloseReason)
  datatype SendFailure = SendFailure(id: Id, reason: FailureReason)

  datatype ChangeSet = ChangeSet(frames: seq<Frame>, writes: seq<Write>, closes: seq<Close>, jobs: seq<Job>) {
    function Then(next: ChangeSet): ChangeSet {
      ChangeSet(frames + next.frames, writes + next.writes, closes + next.closes, jobs + next.jobs)
    }
  }

  const EMPTY_CHANGES := ChangeSet([], [], [], [])

  lemma ThenEmpty(c: ChangeSet)
    ensures c.Then(EMPTY_CHANGES) == c
  {
  }

  function JobIds(jobs: seq<Job>): seq<Id> { seq(|jobs|, i requires 0 <= i < |jobs| => jobs[i].id) }
  function WriteIds(writes: seq<Write>): seq<Id> { seq(|writes|, i requires 0 <= i < |writes| => writes[i].id) }
  function FailureIds(fs: seq<SendFailure>): seq<Id> { seq(|fs|, i requires 0 <= i < |fs| => fs[i].id) }

  function AskId(m: Message): seq<Id> { if m.Ask? then [m.req.id] else [] }

  /** The request ids asked for by the messages, in order. */
  function AskIds(todo: seq<Message>): seq<Id> {
    if todo == [] then [] else AskId(todo[0]) + AskIds(todo[1..])
  }

  lemma AskIdsHead(m: Message, rest: seq<Message>)
    ensures AskIds([m] + rest) == AskId(m) + AskIds(rest)
  {
    assert ([m] + rest)[1..] == rest;
  }

  lemma {:induction false} AskIdsAppend(a: seq<Message>, b: seq<Message>)
    ensures AskIds(a + b) == AskIds(a) + AskIds(b)
  {
    if a == [] {
      assert a + b == b;
    } else {
      var m, rest := a[0], a[1..];
      AskIdsAppend(rest, b);
      AskIdsHead(m, rest + b);
      assert a + b == [m] + (rest + b);
      Associative(AskId(m), AskIds(rest), AskIds(b));
    }
  }
}
