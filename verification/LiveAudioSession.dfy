/**
  The live transcription session of sdk/cpp/src/live_audio_session.cpp.

  Any number of client threads call Start, Append, TryGetNext and Stop while one
  push worker runs.  One step is one critical section of the session mutex, one
  pass through a queue's critical section, or one call into the core; Stop keeps
  the session mutex over several steps, so its owner is part of the state.
*/
module LiveAudioSession {
  import opened ThreadSafeQueue

  const WORKER: Tid := 0

  newtype Byte = x: int | 0 <= x < 256

  type Chunk = seq<Byte>

  /** A parsed transcription response; what it says does not matter here. */
  datatype Transcription = Transcription(json: string)

  datatype Option<+T> = None | Some(value: T)

  datatype Phase = Created | Starting | Started | Stopped

  /** What the core answers to audio_stream_start. */
  datatype StartReply = StartFailed | Handle(handle: string)

  /** What the core answers to a push or a stop: an error, no text, text that is
      not a transcription result, or a result. */
  datatype Reply = Failed(error: string) | NoData | BadData | Good(result: Transcription)

  datatype Command =
    | StreamStart(started: StartReply)
    | StreamPush(handle: string, chunk: Chunk, reply: Reply)
    | StreamStop(handle: string, reply: Reply)

  /** What TryGetNext gave to some reader. */
  datatype Handed = FromQueue(result: Transcription) | Final(result: Transcription)

  /** Where a client thread is inside its call; idle threads have no entry. */
  datatype Pc =
    | StartCalling(capacity: nat)
    | StartReturning(capacity: nat, started: StartReply)
    | Appending(chunk: Chunk)
    | Reading
    | ReadingFinal
    | StopClosingPush
    | StopClosingResult
    | StopUnlocking
    | StopJoining(handle: string)
    | StopCalling(handle: string)
    | StopStoring(reply: Reply)
    | StopFlagging
    | StopRelocking
  {
    predicate IsStart() { StartCalling? || StartReturning? }

    predicate HoldsMutex() { StopClosingPush? || StopClosingResult? || StopUnlocking? }

    /** Inside Stop, before the core has been told. */
    predicate BeforeStopCall() { HoldsMutex() || StopJoining? || StopCalling? }

    predicate BeforeFinal() { BeforeStopCall() || StopStoring? || StopFlagging? }

    predicate IsStop() { BeforeFinal() || StopRelocking? }

    predicate PastClosing() { IsStop() && !StopClosingPush? && !StopClosingResult? }
  }

  datatype WorkerPc =
    | NotStarted
    | Popping
    | Locking(chunk: Chunk)
    | Calling(chunk: Chunk, handle: string)
    | Storing(reply: Reply)
    | FailClosingPush(error: string)
    | FailClosingResult(error: string)
    | Recording(error: string)
    | Done
  {
    predicate Failing() { FailClosingPush? || FailClosingResult? || Recording? }

    function InHand(): seq<Chunk> {
      if Locking? || Calling? then [chunk] else []
    }
  }

  datatype State = Session(
    phase: Phase,
    mutex: Option<Tid>,
    handle: string,
    pushQ: QueueState<Chunk>,
    resultQ: QueueState<Transcription>,
    clients: map<Tid, Pc>,
    worker: WorkerPc,
    finalResult: Option<Transcription>,
    hasFinal: bool,
    errorMessage: string,
    log: seq<Command>,
    handed: seq<Handed>)
  {
    predicate Idle(t: Tid) { t != WORKER && t !in clients }

    predicate At(t: Tid, pc: Pc) { t in clients && clients[t] == pc }

    function Goto(t: Tid, pc: Pc): State { this.(clients := clients[t := pc]) }

    function Return(t: Tid): State { this.(clients := clients - {t}) }
  }

  function Init(): State {
    Session(Created, None, "", NewQueue(0), NewQueue(0), map[], NotStarted, None, false, "", [], [])
  }

  // ---------------------------------------------------------------------
  // Steps
  // ---------------------------------------------------------------------

  datatype ClientOp =
    | StartEnter(requestedCapacity: int)
    | StartCall(started: StartReply)
    | StartReturn
    | AppendEnter(chunk: Chunk)
    | AppendPush(w: Tid)
    | ReadEnter
    | ReadPop(expired: bool, w: Tid)
    | ReadFinal

  datatype StopOp =
    | StopEnter
    | StopClosePush
    | StopCloseResult
    | StopUnlock
    | StopJoin
    | StopCall(reply: Reply)
    | StopStore
    | StopFlag
    | StopRelock

  datatype WorkerOp =
    | WorkerPop(w: Tid)
    | WorkerLock
    | WorkerCall(reply: Reply)
    | WorkerStore(w: Tid)
    | WorkerClosePush
    | WorkerCloseResult
    | WorkerRecord

  /** A sleeper stops waiting without being notified. */
  datatype WakeOp =
    | WakeAppender(t: Tid)
    | WakeWorker
    | WakeReader(t: Tid)

  datatype Action =
    | Client(t: Tid, clientOp: ClientOp)
    | Stopper(t: Tid, stopOp: StopOp)
    | Worker(workerOp: WorkerOp)
    | Wake(wakeOp: WakeOp)

  predicate EnabledClient(s: State, t: Tid, op: ClientOp) {
    match op
    case StartEnter(_) => s.Idle(t) && s.mutex.None?
    case StartCall(_) => t in s.clients && s.clients[t].StartCalling?
    case StartReturn => t in s.clients && s.clients[t].StartReturning? && s.mutex.None?
    case AppendEnter(_) => s.Idle(t) && s.mutex.None?
    case AppendPush(w) =>
      t in s.clients && s.clients[t].Appending? && t !in s.pushQ.notFull.asleep && s.pushQ.notEmpty.MayWake(w)
    case ReadEnter => s.Idle(t) && s.mutex.None?
    case ReadPop(_, w) => s.At(t, Reading) && t !in s.resultQ.notEmpty.asleep && s.resultQ.notFull.MayWake(w)
    case ReadFinal => s.At(t, ReadingFinal) && s.mutex.None?
  }

  predicate EnabledStop(s: State, t: Tid, op: StopOp) {
    match op
    case StopEnter => s.Idle(t) && s.mutex.None?
    case StopClosePush => s.At(t, StopClosingPush)
    case StopCloseResult => s.At(t, StopClosingResult)
    case StopUnlock => s.At(t, StopUnlocking)
    case StopJoin => t in s.clients && s.clients[t].StopJoining? && s.worker.Done?
    case StopCall(_) => t in s.clients && s.clients[t].StopCalling?
    case StopStore => t in s.clients && s.clients[t].StopStoring?
    case StopFlag => s.At(t, StopFlagging)
    case StopRelock => s.At(t, StopRelocking) && s.mutex.None?
  }

  predicate EnabledWorker(s: State, op: WorkerOp) {
    match op
    case WorkerPop(w) => s.worker.Popping? && WORKER !in s.pushQ.notEmpty.asleep && s.pushQ.notFull.MayWake(w)
    case WorkerLock => s.worker.Locking? && s.mutex.None?
    case WorkerCall(_) => s.worker.Calling?
    case WorkerStore(w) => s.worker.Storing? && s.resultQ.notEmpty.MayWake(w)
    case WorkerClosePush => s.worker.FailClosingPush?
    case WorkerCloseResult => s.worker.FailClosingResult?
    case WorkerRecord => s.worker.Recording? && s.mutex.None?
  }

  predicate EnabledWake(s: State, op: WakeOp) {
    match op
    case WakeAppender(t) => t in s.pushQ.notFull.asleep
    case WakeWorker => WORKER in s.pushQ.notEmpty.asleep
    case WakeReader(t) => t in s.resultQ.notEmpty.asleep
  }

  predicate Enabled(s: State, a: Action) {
    match a
    case Client(t, op) => EnabledClient(s, t, op)
    case Stopper(t, op) => EnabledStop(s, t, op)
    case Worker(op) => EnabledWorker(s, op)
    case Wake(op) => EnabledWake(s, op)
  }

  function StepClient(s: State, t: Tid, op: ClientOp): State
    requires EnabledClient(s, t, op)
  {
    match op
    case StartEnter(n) =>
      // "already started" and the capacity check throw and leave the session as it was
      if s.phase != Created || n <= 0 then s else s.(phase := Starting).Goto(t, StartCalling(n))
    case StartCall(started) =>
      s.(log := s.log + [StreamStart(started)]).Goto(t, StartReturning(s.clients[t].capacity, started))
    case StartReturn =>
      var pc := s.clients[t];
      var r := s.Return(t);
      if pc.started.StartFailed? then r.(phase := Created)
      else if pc.started.handle == "" then r.(phase := Created, handle := "")
      else r.(phase := Started, handle := pc.started.handle, worker := Popping,
              pushQ := NewQueue(pc.capacity), resultQ := NewQueue(pc.capacity))
    case AppendEnter(chunk) =>
      if s.phase != Started then s else s.Goto(t, Appending(chunk))
    case AppendPush(w) =>
      var (q, outcome) := PushPass(s.pushQ, t, s.clients[t].chunk, false, w);
      if outcome == PushBlocked then s.(pushQ := q) else s.(pushQ := q).Return(t)
    case ReadEnter =>
      if s.phase != Started && s.phase != Stopped then s else s.Goto(t, Reading)
    case ReadPop(expired, w) =>
      var (q, outcome) := PopPass(s.resultQ, t, expired, w);
      var r := s.(resultQ := q);
      (match outcome
       case Item(value) => r.(handed := r.handed + [FromQueue(value)]).Return(t)
       case Closed => r.Goto(t, ReadingFinal)
       case PopBlocked => r
       case _ => r.Return(t))
    case ReadFinal =>
      if s.hasFinal && s.finalResult.Some?
      then s.(handed := s.handed + [Final(s.finalResult.value)], hasFinal := false).Return(t)
      else s.Return(t)
  }

  function StepStop(s: State, t: Tid, op: StopOp): State
    requires EnabledStop(s, t, op)
  {
    match op
    case StopEnter =>
      if s.phase != Started then s else s.(phase := Stopped, mutex := Some(t)).Goto(t, StopClosingPush)
    case StopClosePush => s.(pushQ := ClosePass(s.pushQ)).Goto(t, StopClosingResult)
    case StopCloseResult => s.(resultQ := ClosePass(s.resultQ)).Goto(t, StopUnlocking)
    case StopUnlock => s.(mutex := None).Goto(t, StopJoining(s.handle))
    case StopJoin => s.Goto(t, StopCalling(s.clients[t].handle))
    case StopCall(reply) =>
      s.(log := s.log + [StreamStop(s.clients[t].handle, reply)]).Goto(t, StopStoring(reply))
    case StopStore =>
      (match s.clients[t].reply
       case Failed(error) =>
         s.(resultQ := CloseWithErrorPass(s.resultQ, "audio_stream_stop failed: " + error)).Goto(t, StopRelocking)
       case Good(result) => s.(finalResult := Some(result)).Goto(t, StopFlagging)
       case _ => s.Goto(t, StopRelocking))
    case StopFlag => s.(hasFinal := true).Goto(t, StopRelocking)
    case StopRelock => s.Return(t)
  }

  function StepWorker(s: State, op: WorkerOp): State
    requires EnabledWorker(s, op)
  {
    match op
    case WorkerPop(w) =>
      var (q, outcome) := PopPass(s.pushQ, WORKER, false, w);
      var r := s.(pushQ := q);
      (match outcome
       case Item(chunk) => r.(worker := Locking(chunk))
       case PopBlocked => r
       case _ => r.(worker := Done))
    case WorkerLock => s.(worker := Calling(s.worker.chunk, s.handle))
    case WorkerCall(reply) =>
      s.(log := s.log + [StreamPush(s.worker.handle, s.worker.chunk, reply)],
         worker := if reply.Failed? then FailClosingPush(reply.error) else Storing(reply))
    case WorkerStore(w) =>
      if s.worker.reply.Good?
      then s.(resultQ := TryPushPass(s.resultQ, s.worker.reply.result, w).0, worker := Popping)
      else s.(worker := Popping)
    case WorkerClosePush => s.(pushQ := ClosePass(s.pushQ), worker := FailClosingResult(s.worker.error))
    case WorkerCloseResult =>
      s.(resultQ := CloseWithErrorPass(s.resultQ, s.worker.error), worker := Recording(s.worker.error))
    case WorkerRecord => s.(errorMessage := s.worker.error, worker := Done)
  }

  function StepWake(s: State, op: WakeOp): State
    requires EnabledWake(s, op)
  {
    match op
    case WakeAppender(t) => s.(pushQ := s.pushQ.(notFull := s.pushQ.notFull.Wake(t)))
    case WakeWorker => s.(pushQ := s.pushQ.(notEmpty := s.pushQ.notEmpty.Wake(WORKER)))
    case WakeReader(t) => s.(resultQ := s.resultQ.(notEmpty := s.resultQ.notEmpty.Wake(t)))
  }

  function Step(s: State, a: Action): State
    requires Enabled(s, a)
  {
    match a
    case Client(t, op) => StepClient(s, t, op)
    case Stopper(t, op) => StepStop(s, t, op)
    case Worker(op) => StepWorker(s, op)
    case Wake(op) => StepWake(s, op)
  }

  ghost predicate Legal(s: State, run: seq<Action>)
    decreases |run|
  {
    run == [] || (Enabled(s, run[0]) && Legal(Step(s, run[0]), run[1..]))
  }

  ghost function Run(s: State, run: seq<Action>): State
    requires Legal(s, run)
    decreases |run|
  {
    if run == [] then s else Run(Step(s, run[0]), run[1..])
  }
}
