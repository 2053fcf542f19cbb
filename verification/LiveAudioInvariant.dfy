/**
  The invariant of the live audio session, and the proof that every step of any
  thread keeps it.
*/
module LiveAudioInvariant {
  import opened ThreadSafeQueue
  import opened LiveAudioSession

  // ---------------------------------------------------------------------
  // What the logs say
  // ---------------------------------------------------------------------

  /** The chunks of the push commands, in the order the core saw them. */
  ghost function Pushes(log: seq<Command>): seq<Chunk> {
    if log == [] then []
    else Pushes(log[..|log| - 1]) + (var c := log[|log| - 1]; if c.StreamPush? then [c.chunk] else [])
  }

  ghost function Queued(handed: seq<Handed>): seq<Transcription> {
    if handed == [] then []
    else Queued(handed[..|handed| - 1]) + (var h := handed[|handed| - 1]; if h.FromQueue? then [h.result] else [])
  }

  ghost predicate NoStop(log: seq<Command>) {
    forall i :: 0 <= i < |log| ==> !log[i].StreamStop?
  }

  /** No push was answered with an error. */
  ghost predicate NoPushFailed(log: seq<Command>) {
    forall i :: 0 <= i < |log| && log[i].StreamPush? ==> !log[i].reply.Failed?
  }

  ghost predicate NoFinal(handed: seq<Handed>) {
    forall i :: 0 <= i < |handed| ==> !handed[i].Final?
  }

  /** At most the last element of a log is of the closing kind. */
  ghost predicate StopIsLast(log: seq<Command>) {
    log == [] || NoStop(log[..|log| - 1])
  }

  ghost predicate FinalIsLast(handed: seq<Handed>) {
    handed == [] || NoFinal(handed[..|handed| - 1])
  }

  ghost predicate HandlesAre(log: seq<Command>, handle: string) {
    forall i :: 0 <= i < |log| && !log[i].StreamStart? ==> log[i].handle == handle
  }

  lemma LogGrows(log: seq<Command>, c: Command)
    ensures Pushes(log + [c]) == Pushes(log) + (if c.StreamPush? then [c.chunk] else [])
    ensures NoStop(log) ==> StopIsLast(log + [c])
    ensures NoStop(log) && !c.StreamStop? ==> NoStop(log + [c])
    ensures NoPushFailed(log + [c]) ==> NoPushFailed(log)
  {
    assert (log + [c])[..|log|] == log;
    if NoPushFailed(log + [c]) {
      forall i | 0 <= i < |log| && log[i].StreamPush?
        ensures !log[i].reply.Failed?
      {
        assert (log + [c])[i] == log[i];
      }
    }
  }

  lemma HandedGrows(handed: seq<Handed>, h: Handed)
    ensures Queued(handed + [h]) == Queued(handed) + (if h.FromQueue? then [h.result] else [])
    ensures NoFinal(handed) ==> FinalIsLast(handed + [h])
    ensures NoFinal(handed) && h.FromQueue? ==> NoFinal(handed + [h])
  {
    assert (handed + [h])[..|handed|] == handed;
  }

  // ---------------------------------------------------------------------
  // The invariant
  // ---------------------------------------------------------------------

  type Clients = map<Tid, Pc>

  ghost predicate Up(phase: Phase) { phase == Started || phase == Stopped }

  /** Start and Stop are each inside the session at most once, and only a Stop
      that is closing the queues owns the session mutex. */
  ghost predicate ThreadsInv(phase: Phase, mutex: Option<Tid>, clients: Clients) {
    && WORKER !in clients
    && (forall t :: t in clients && clients[t].HoldsMutex() ==> mutex == Some(t))
    && (mutex.Some? ==> mutex.value in clients && clients[mutex.value].HoldsMutex())
    && (forall t :: t in clients && clients[t].IsStart() ==> phase == Starting)
    && (forall t :: t in clients && clients[t].IsStop() ==> phase == Stopped)
    && (forall t :: t in clients && !clients[t].IsStart() ==> Up(phase))
    && (forall t, u :: t in clients && u in clients && clients[t].IsStart() && clients[u].IsStart() ==> t == u)
    && (forall t, u :: t in clients && u in clients && clients[t].IsStop() && clients[u].IsStop() ==> t == u)
  }

  /** Who may be found waiting where. */
  ghost predicate WaitersInv(clients: Clients, worker: WorkerPc, appenders: set<Tid>, poppers: set<Tid>,
      readers: set<Tid>, others: set<Tid>) {
    && (forall t :: t in appenders ==> t in clients && clients[t].Appending?)
    && (forall t :: t in poppers ==> t == WORKER && worker.Popping?)
    && (forall t :: t in readers ==> t in clients && clients[t].Reading?)
    && others == {}
  }

  ghost predicate WaitersFit(s: State) {
    WaitersInv(s.clients, s.worker, s.pushQ.notFull.Waiting(), s.pushQ.notEmpty.Waiting(),
               s.resultQ.notEmpty.Waiting(), s.resultQ.notFull.Waiting())
  }

  /** What the program point of a client thread says about the session. */
  datatype Facts = Facts(
    pushClosed: bool, resultClosed: bool, resultDrained: bool, workerDone: bool, stopSent: bool,
    finalUntouched: bool, finalStored: bool, handle: string, log: seq<Command>)

  ghost function FactsOf(s: State): Facts {
    Facts(s.pushQ.closed, s.resultQ.closed, s.resultQ.Drained(), s.worker.Done?, !NoStop(s.log),
          !s.hasFinal && NoFinal(s.handed), s.finalResult.Some?, s.handle, s.log)
  }

  ghost predicate Fits(pc: Pc, f: Facts) {
    && (pc.IsStart() ==> pc.capacity > 0)
    && (pc.StartReturning? ==> StreamStart(pc.started) in f.log)
    && (pc.ReadingFinal? ==> f.resultDrained)
    && (pc.IsStop() && !pc.StopClosingPush? ==> f.pushClosed)
    && (pc.PastClosing() ==> f.resultClosed)
    && (pc.BeforeStopCall() ==> !f.stopSent)
    && (pc.BeforeFinal() ==> f.finalUntouched)
    && (pc.StopJoining? || pc.StopCalling? ==> pc.handle == f.handle)
    && (pc.StopCalling? ==> f.workerDone)
    && (pc.StopStoring? ==> f.stopSent && EndsWith(f.log, StreamStop(f.handle, pc.reply)))
    && (pc.StopFlagging? ==> f.finalStored)
  }

  ghost predicate FitInv(clients: Clients, f: Facts) {
    forall t :: t in clients ==> Fits(clients[t], f)
  }

  ghost predicate DeliveryInv(up: bool, worker: WorkerPc, pushQ: QueueState<Chunk>, log: seq<Command>) {
    && QueueInv(pushQ) && !pushQ.hasError
    && (up <==> !worker.NotStarted?)
    && (up ==> pushQ.capacity > 0)
    && (!up ==> pushQ.pushed == [])
    && Pushes(log) + worker.InHand() == pushQ.popped
    && (worker.Failing() ==> !NoPushFailed(log))
    && (worker.FailClosingResult? || worker.Recording? || worker.Done? ==> pushQ.closed)
    && (worker.Done? && NoPushFailed(log) ==> pushQ.items == [])
  }

  ghost predicate StopInv(stopped: bool, worker: WorkerPc, log: seq<Command>) {
    && StopIsLast(log)
    && (!stopped ==> NoStop(log))
    && (!NoStop(log) ==> worker.Done?)
  }

  ghost predicate HandleInv(up: bool, handle: string, worker: WorkerPc, log: seq<Command>) {
    && (up ==> handle != "" && StreamStart(Handle(handle)) in log && HandlesAre(log, handle))
    && (!up ==> OnlyStarts(log))
    && (worker.Calling? ==> worker.handle == handle)
  }

  ghost predicate ResultInv(phase: Phase, resultQ: QueueState<Transcription>, finalResult: Option<Transcription>,
      hasFinal: bool, handed: seq<Handed>) {
    && QueueInv(resultQ)
    && Queued(handed) == resultQ.popped
    && FinalIsLast(handed)
    && (!Up(phase) ==> handed == [] && resultQ.pushed == [])
    && (hasFinal ==> finalResult.Some? && NoFinal(handed))
    && (phase != Stopped ==> !hasFinal && NoFinal(handed))
    && (!NoFinal(handed) ==> resultQ.Drained())
  }

  /** The final result, once there, is the one the core gave to the stop. */
  ghost predicate FinalInv(handle: string, log: seq<Command>, finalResult: Option<Transcription>, handed: seq<Handed>) {
    && (finalResult.Some? ==> EndsWith(log, StreamStop(handle, Good(finalResult.value))))
    && (!NoFinal(handed) ==> finalResult.Some? && handed[|handed| - 1] == Final(finalResult.value))
  }

  ghost predicate EndsWith(log: seq<Command>, c: Command) { log != [] && log[|log| - 1] == c }

  ghost predicate OnlyStarts(log: seq<Command>) { forall i :: 0 <= i < |log| ==> log[i].StreamStart? }

  ghost predicate Inv(s: State) {
    && ThreadsInv(s.phase, s.mutex, s.clients)
    && WaitersFit(s)
    && FitInv(s.clients, FactsOf(s))
    && DeliveryInv(Up(s.phase), s.worker, s.pushQ, s.log)
    && StopInv(s.phase == Stopped, s.worker, s.log)
    && HandleInv(Up(s.phase), s.handle, s.worker, s.log)
    && ResultInv(s.phase, s.resultQ, s.finalResult, s.hasFinal, s.handed)
    && FinalInv(s.handle, s.log, s.finalResult, s.handed)
  }

  lemma MoveThread(phase: Phase, mutex: Option<Tid>, clients: Clients, t: Tid, pc: Pc)
    requires ThreadsInv(phase, mutex, clients) && t in clients
    requires pc.IsStart() == clients[t].IsStart() && pc.IsStop() == clients[t].IsStop()
    requires pc.HoldsMutex() == clients[t].HoldsMutex()
    ensures ThreadsInv(phase, mutex, clients[t := pc])
  {
  }

  lemma EnterThread(phase: Phase, mutex: Option<Tid>, clients: Clients, t: Tid, pc: Pc)
    requires ThreadsInv(phase, mutex, clients) && t !in clients && t != WORKER
    requires !pc.IsStart() && !pc.IsStop() && Up(phase)
    ensures ThreadsInv(phase, mutex, clients[t := pc])
  {
  }

  lemma LeaveThread(phase: Phase, mutex: Option<Tid>, clients: Clients, t: Tid)
    requires ThreadsInv(phase, mutex, clients) && t in clients && !clients[t].HoldsMutex()
    ensures ThreadsInv(phase, mutex, clients - {t})
  {
  }

  lemma StartEnters(clients: Clients, t: Tid, n: nat)
    requires ThreadsInv(Created, None, clients) && t !in clients && t != WORKER
    ensures ThreadsInv(Starting, None, clients[t := StartCalling(n)])
  {
  }

  lemma StartReturns(phase: Phase, clients: Clients, t: Tid)
    requires ThreadsInv(phase, None, clients) && t in clients && clients[t].IsStart()
    ensures ThreadsInv(Created, None, clients - {t}) && ThreadsInv(Started, None, clients - {t})
  {
  }

  lemma StopEnters(clients: Clients, t: Tid)
    requires ThreadsInv(Started, None, clients) && t !in clients && t != WORKER
    ensures ThreadsInv(Stopped, Some(t), clients[t := StopClosingPush])
  {
  }

  lemma StopUnlocks(phase: Phase, clients: Clients, t: Tid, handle: string)
    requires ThreadsInv(phase, Some(t), clients) && t in clients && clients[t].IsStop()
    ensures ThreadsInv(phase, None, clients[t := StopJoining(handle)])
  {
  }

  lemma {:induction false} ClientKeepsThreads(s: State, t: Tid, op: ClientOp)
    requires EnabledClient(s, t, op)
    requires ThreadsInv(s.phase, s.mutex, s.clients)
    ensures var r := StepClient(s, t, op); ThreadsInv(r.phase, r.mutex, r.clients)
  {
    hide ThreadsInv;
    match op
    case StartEnter(n) => if s.phase == Created && n > 0 { StartEnters(s.clients, t, n); }
    case StartCall(started) => MoveThread(s.phase, s.mutex, s.clients, t,
        StartReturning(s.clients[t].capacity, started));
    case StartReturn => StartReturns(s.phase, s.clients, t);
    case AppendEnter(chunk) => if s.phase == Started { EnterThread(s.phase, s.mutex, s.clients, t, Appending(chunk)); }
    case AppendPush(w) => LeaveThread(s.phase, s.mutex, s.clients, t);
    case ReadEnter => if Up(s.phase) { EnterThread(s.phase, s.mutex, s.clients, t, Reading); }
    case ReadPop(expired, w) =>
      LeaveThread(s.phase, s.mutex, s.clients, t);
      MoveThread(s.phase, s.mutex, s.clients, t, ReadingFinal);
    case ReadFinal => LeaveThread(s.phase, s.mutex, s.clients, t);
  }

  lemma {:induction false} StopKeepsThreads(s: State, t: Tid, op: StopOp)
    requires EnabledStop(s, t, op)
    requires ThreadsInv(s.phase, s.mutex, s.clients)
    ensures var r := StepStop(s, t, op); ThreadsInv(r.phase, r.mutex, r.clients)
  {
    match op
    case StopEnter => if s.phase == Started { StopEnters(s.clients, t); }
    case StopClosePush => MoveThread(s.phase, s.mutex, s.clients, t, StopClosingResult);
    case StopCloseResult => MoveThread(s.phase, s.mutex, s.clients, t, StopUnlocking);
    case StopUnlock => StopUnlocks(s.phase, s.clients, t, s.handle);
    case StopJoin => MoveThread(s.phase, s.mutex, s.clients, t, StopCalling(s.clients[t].handle));
    case StopCall(reply) => MoveThread(s.phase, s.mutex, s.clients, t, StopStoring(reply));
    case StopStore =>
      MoveThread(s.phase, s.mutex, s.clients, t, StopFlagging);
      MoveThread(s.phase, s.mutex, s.clients, t, StopRelocking);
    case StopFlag => MoveThread(s.phase, s.mutex, s.clients, t, StopRelocking);
    case StopRelock => LeaveThread(s.phase, s.mutex, s.clients, t);
  }

  lemma MoveKeepsWaiters(clients: Clients, worker: WorkerPc, appenders: set<Tid>, poppers: set<Tid>, readers: set<Tid>,
      t: Tid, pc: Pc)
    requires WaitersInv(clients, worker, appenders, poppers, readers, {})
    requires t in clients ==> !clients[t].Appending? && !clients[t].Reading?
    ensures WaitersInv(clients[t := pc], worker, appenders, poppers, readers, {})
    ensures WaitersInv(clients - {t}, worker, appenders, poppers, readers, {})
  {
  }

  /** An appender or a reader whose pass did not block waits nowhere any more. */
  lemma LeaveKeepsWaiters(clients: Clients, worker: WorkerPc, appenders: set<Tid>, poppers: set<Tid>,
      readers: set<Tid>, t: Tid, pc: Pc)
    requires WaitersInv(clients, worker, appenders, poppers, readers, {})
    requires t !in appenders && t !in readers
    ensures WaitersInv(clients[t := pc], worker, appenders, poppers, readers, {})
    ensures WaitersInv(clients - {t}, worker, appenders, poppers, readers, {})
  {
  }

  lemma {:induction false} AppendKeepsWaiters(s: State, t: Tid, w: Tid)
    requires EnabledClient(s, t, AppendPush(w)) && WaitersFit(s)
    ensures WaitersFit(StepClient(s, t, AppendPush(w)))
  {
    PushWaiters(s.pushQ, t, s.clients[t].chunk, false, w);
    var (q, outcome) := PushPass(s.pushQ, t, s.clients[t].chunk, false, w);
    if outcome != PushBlocked {
      LeaveKeepsWaiters(s.clients, s.worker, q.notFull.Waiting(), q.notEmpty.Waiting(), s.resultQ.notEmpty.Waiting(),
          t, Reading);
    }
  }

  lemma {:induction false} ReadKeepsWaiters(s: State, t: Tid, expired: bool, w: Tid)
    requires EnabledClient(s, t, ReadPop(expired, w)) && WaitersFit(s)
    ensures WaitersFit(StepClient(s, t, ReadPop(expired, w)))
  {
    PopWaiters(s.resultQ, t, expired, w);
    var (q, outcome) := PopPass(s.resultQ, t, expired, w);
    if outcome != PopBlocked {
      LeaveKeepsWaiters(s.clients, s.worker, s.pushQ.notFull.Waiting(), s.pushQ.notEmpty.Waiting(),
          q.notEmpty.Waiting(), t, ReadingFinal);
    }
  }

  lemma {:induction false} ClientKeepsWaiters(s: State, t: Tid, op: ClientOp)
    requires EnabledClient(s, t, op) && WaitersFit(s)
    ensures WaitersFit(StepClient(s, t, op))
  {
    match op
    case AppendPush(w) => AppendKeepsWaiters(s, t, w);
    case ReadPop(expired, w) => ReadKeepsWaiters(s, t, expired, w);
    case AppendEnter(chunk) => MovedWaiters(s, t, Appending(chunk));
    case ReadEnter => MovedWaiters(s, t, Reading);
    case ReadFinal => MovedWaiters(s, t, Reading);
    case StartEnter(n) => if n > 0 { MovedWaiters(s, t, StartCalling(n)); }
    case StartCall(started) => MovedWaiters(s, t, StartReturning(s.clients[t].capacity, started));
    case StartReturn =>
      MovedWaiters(s, t, Reading);
  }

  lemma MovedWaiters(s: State, t: Tid, pc: Pc)
    requires WaitersFit(s)
    requires t in s.clients ==> !s.clients[t].Appending? && !s.clients[t].Reading?
    ensures WaitersFit(s.Goto(t, pc)) && WaitersFit(s.Return(t))
  {
    MoveKeepsWaiters(s.clients, s.worker, s.pushQ.notFull.Waiting(), s.pushQ.notEmpty.Waiting(),
        s.resultQ.notEmpty.Waiting(), t, pc);
  }

  lemma {:induction false} StopKeepsWaiters(s: State, t: Tid, op: StopOp)
    requires EnabledStop(s, t, op) && WaitersFit(s)
    ensures WaitersFit(StepStop(s, t, op))
  {
    var r := StepStop(s, t, op);
    MovedWaiters(s, t, if t in r.clients then r.clients[t] else Reading);
  }

  lemma {:induction false} WorkerKeepsWaiters(s: State, op: WorkerOp)
    requires EnabledWorker(s, op) && WaitersFit(s)
    ensures WaitersFit(StepWorker(s, op))
  {
    match op
    case WorkerPop(w) => PopWaiters(s.pushQ, WORKER, false, w);
    case _ =>
  }

  lemma {:induction false} WakeKeepsWaiters(s: State, op: WakeOp)
    requires EnabledWake(s, op) && WaitersFit(s)
    ensures WaitersFit(StepWake(s, op))
  {
  }

  /** The facts of a later state, as far as threads that do not move depend on them. */
  ghost predicate Later(f: Facts, g: Facts) {
    && LaterForOthers(f, g)
    && (f.pushClosed ==> g.pushClosed) && (f.resultClosed ==> g.resultClosed)
    && (f.workerDone ==> g.workerDone) && (f.finalStored ==> g.finalStored)
    && (f.finalUntouched ==> g.finalUntouched)
    && f.stopSent == g.stopSent && f.handle == g.handle && (f.stopSent ==> f.log == g.log)
  }

  /** What is enough for threads outside Stop. */
  ghost predicate LaterForOthers(f: Facts, g: Facts) {
    (f.resultDrained ==> g.resultDrained) && f.log <= g.log
  }

  ghost predicate OnlyMoves(t: Tid, before: Clients, after: Clients) {
    forall u :: u in after && u != t ==> u in before && after[u] == before[u]
  }

  lemma OthersFit(before: Clients, after: Clients, t: Tid, f: Facts, g: Facts)
    requires FitInv(before, f) && LaterForOthers(f, g) && OnlyMoves(t, before, after)
    requires Later(f, g) || forall u :: u in before && u != t ==> !before[u].IsStop()
    requires t in after ==> Fits(after[t], g)
    ensures FitInv(after, g)
  {
    forall u | u in after && u != t
      ensures Fits(after[u], g)
    {
      assert Fits(before[u], f);
    }
  }

  lemma {:induction false} StartCallIsLater(s: State, t: Tid, started: StartReply)
    requires EnabledClient(s, t, StartCall(started)) && NoStop(s.log)
    ensures Later(FactsOf(s), FactsOf(StepClient(s, t, StartCall(started))))
  {
    LogGrows(s.log, StreamStart(started));
  }

  lemma {:induction false} ReadPopIsLater(s: State, t: Tid, expired: bool, w: Tid)
    requires EnabledClient(s, t, ReadPop(expired, w))
    ensures Later(FactsOf(s), FactsOf(StepClient(s, t, ReadPop(expired, w))))
  {
    if s.resultQ.items != [] {
      HandedGrows(s.handed, FromQueue(s.resultQ.items[0]));
    }
  }

  lemma {:induction false} ClientIsLater(s: State, t: Tid, op: ClientOp)
    requires EnabledClient(s, t, op) && !op.StartReturn?
    requires op.StartCall? ==> NoStop(s.log)
    ensures Later(FactsOf(s), FactsOf(StepClient(s, t, op)))
  {
    match op
    case StartCall(started) => StartCallIsLater(s, t, started);
    case ReadPop(expired, w) => ReadPopIsLater(s, t, expired, w);
    case AppendPush(w) =>
    case ReadFinal =>
    case _ =>
  }

  lemma {:induction false} StartFits(s: State, t: Tid, op: ClientOp)
    requires EnabledClient(s, t, op) && (op.StartEnter? || op.StartCall?)
    requires t in s.clients ==> Fits(s.clients[t], FactsOf(s))
    ensures var r := StepClient(s, t, op); t in r.clients ==> Fits(r.clients[t], FactsOf(r))
  {
  }

  lemma {:induction false} AppendFits(s: State, t: Tid, op: ClientOp)
    requires EnabledClient(s, t, op) && (op.AppendEnter? || op.AppendPush?)
    ensures var r := StepClient(s, t, op); t in r.clients ==> r.clients[t].Appending?
  {
  }

  lemma {:induction false} ReadFits(s: State, t: Tid, op: ClientOp)
    requires EnabledClient(s, t, op) && (op.ReadEnter? || op.ReadPop? || op.ReadFinal?)
    requires QueueInv(s.resultQ)
    ensures var r := StepClient(s, t, op);
            t in r.clients ==> r.clients[t].Reading? || (r.clients[t].ReadingFinal? && r.resultQ.Drained())
  {
  }

  lemma ClientMovesOne(s: State, t: Tid, op: ClientOp)
    requires EnabledClient(s, t, op)
    ensures OnlyMoves(t, s.clients, StepClient(s, t, op).clients)
  {
  }

  lemma NobodyElseStarts(s: State, t: Tid)
    requires EnabledClient(s, t, StartReturn) && ThreadsInv(s.phase, s.mutex, s.clients)
    ensures StepClient(s, t, StartReturn).clients == map[]
  {
    assert s.clients.Keys == {t};
  }

  lemma {:induction false} ClientKeepsFit(s: State, t: Tid, op: ClientOp)
    requires EnabledClient(s, t, op) && !op.StartReturn?
    requires FitInv(s.clients, FactsOf(s))
    requires (op.StartCall? ==> NoStop(s.log)) && QueueInv(s.resultQ)
    ensures var r := StepClient(s, t, op); FitInv(r.clients, FactsOf(r))
  {
    var r := StepClient(s, t, op);
    if t in s.clients { assert Fits(s.clients[t], FactsOf(s)); }
    ClientMovesOne(s, t, op);
    ClientIsLater(s, t, op);
    hide FitInv, OnlyMoves, Later;
    match op {
      case StartEnter(_) => StartFits(s, t, op);
      case StartCall(_) => StartFits(s, t, op);
      case AppendEnter(_) => AppendFits(s, t, op);
      case AppendPush(_) => AppendFits(s, t, op);
      case _ => ReadFits(s, t, op);
    }
    OthersFit(s.clients, r.clients, t, FactsOf(s), FactsOf(r));
  }

  lemma {:induction false} StopClosingFits(s: State, t: Tid, op: StopOp)
    requires EnabledStop(s, t, op) && (op.StopEnter? || op.StopClosePush? || op.StopCloseResult? || op.StopUnlock?)
    requires t in s.clients ==> Fits(s.clients[t], FactsOf(s))
    requires s.phase == Started ==> NoStop(s.log) && !s.hasFinal && NoFinal(s.handed)
    ensures var r := StepStop(s, t, op); t in r.clients ==> Fits(r.clients[t], FactsOf(r))
  {
  }

  lemma {:induction false} StopCallFits(s: State, t: Tid, op: StopOp)
    requires EnabledStop(s, t, op) && (op.StopJoin? || op.StopCall?)
    requires Fits(s.clients[t], FactsOf(s))
    ensures var r := StepStop(s, t, op); Fits(r.clients[t], FactsOf(r))
  {
    if op.StopCall? {
      var c: Command := StreamStop(s.clients[t].handle, op.reply);
      assert (s.log + [c])[|s.log|] == c;
    }
  }

  lemma {:induction false} StopFinalFits(s: State, t: Tid, op: StopOp)
    requires EnabledStop(s, t, op) && (op.StopStore? || op.StopFlag? || op.StopRelock?)
    requires Fits(s.clients[t], FactsOf(s))
    ensures var r := StepStop(s, t, op); t in r.clients ==> Fits(r.clients[t], FactsOf(r))
  {
  }

  lemma StopMovesOne(s: State, t: Tid, op: StopOp)
    requires EnabledStop(s, t, op)
    ensures OnlyMoves(t, s.clients, StepStop(s, t, op).clients)
  {
  }

  lemma {:induction false} StopIsLater(s: State, t: Tid, op: StopOp)
    requires EnabledStop(s, t, op) && ThreadsInv(s.phase, s.mutex, s.clients)
    ensures var r := StepStop(s, t, op);
            && LaterForOthers(FactsOf(s), FactsOf(r))
            && (Later(FactsOf(s), FactsOf(r)) || forall u :: u in s.clients && u != t ==> !s.clients[u].IsStop())
  {
  }

  lemma {:induction false} StopKeepsFit(s: State, t: Tid, op: StopOp)
    requires EnabledStop(s, t, op)
    requires ThreadsInv(s.phase, s.mutex, s.clients) && FitInv(s.clients, FactsOf(s))
    requires StopInv(s.phase == Stopped, s.worker, s.log) && (s.phase == Started ==> !s.hasFinal && NoFinal(s.handed))
    ensures var r := StepStop(s, t, op); FitInv(r.clients, FactsOf(r))
  {
    var r := StepStop(s, t, op);
    if t in s.clients { assert Fits(s.clients[t], FactsOf(s)); }
    StopMovesOne(s, t, op);
    StopIsLater(s, t, op);
    hide FitInv, Fits, OnlyMoves, ThreadsInv, LaterForOthers, Later;
    match op {
      case StopJoin => StopCallFits(s, t, op);
      case StopCall(_) => StopCallFits(s, t, op);
      case StopStore => StopFinalFits(s, t, op);
      case StopFlag => StopFinalFits(s, t, op);
      case StopRelock => StopFinalFits(s, t, op);
      case _ => StopClosingFits(s, t, op);
    }
    OthersFit(s.clients, r.clients, t, FactsOf(s), FactsOf(r));
  }

  lemma {:induction false} WorkerCallIsLater(s: State, reply: Reply)
    requires EnabledWorker(s, WorkerCall(reply)) && NoStop(s.log)
    ensures Later(FactsOf(s), FactsOf(StepWorker(s, WorkerCall(reply))))
  {
    LogGrows(s.log, StreamPush(s.worker.handle, s.worker.chunk, reply));
  }

  lemma {:induction false} WorkerIsLater(s: State, op: WorkerOp)
    requires EnabledWorker(s, op) && !op.WorkerCall?
    ensures Later(FactsOf(s), FactsOf(StepWorker(s, op))) && StepWorker(s, op).clients == s.clients
  {
  }

  lemma {:induction false} WorkerKeepsFit(s: State, op: WorkerOp)
    requires EnabledWorker(s, op)
    requires FitInv(s.clients, FactsOf(s)) && StopInv(s.phase == Stopped, s.worker, s.log) && WORKER !in s.clients
    ensures var r := StepWorker(s, op); FitInv(r.clients, FactsOf(r))
  {
    var r := StepWorker(s, op);
    if op.WorkerCall? {
      WorkerCallIsLater(s, op.reply);
    } else {
      WorkerIsLater(s, op);
    }
    hide FitInv, Fits, StopInv;
    OthersFit(s.clients, r.clients, WORKER, FactsOf(s), FactsOf(r));
  }

  lemma {:induction false} WakeKeepsFit(s: State, op: WakeOp)
    requires EnabledWake(s, op) && FitInv(s.clients, FactsOf(s))
    ensures var r := StepWake(s, op); FitInv(r.clients, FactsOf(r))
  {
  }

  // Delivery of the chunks

  lemma StartReturnKeepsDelivery(s: State, t: Tid)
    requires EnabledClient(s, t, StartReturn) && s.phase == Starting && s.clients[t].capacity > 0
    requires DeliveryInv(Up(s.phase), s.worker, s.pushQ, s.log)
    ensures var r := StepClient(s, t, StartReturn); DeliveryInv(Up(r.phase), r.worker, r.pushQ, r.log)
  {
  }

  lemma {:induction false} AppendKeepsDelivery(s: State, t: Tid, w: Tid)
    requires EnabledClient(s, t, AppendPush(w)) && Up(s.phase)
    requires DeliveryInv(Up(s.phase), s.worker, s.pushQ, s.log)
    ensures var r := StepClient(s, t, AppendPush(w)); DeliveryInv(Up(r.phase), r.worker, r.pushQ, r.log)
  {
    PushPreserves(s.pushQ, t, s.clients[t].chunk, false, w);
  }

  lemma {:induction false} StartCallKeepsDelivery(s: State, t: Tid, started: StartReply)
    requires EnabledClient(s, t, StartCall(started))
    requires DeliveryInv(Up(s.phase), s.worker, s.pushQ, s.log)
    ensures var r := StepClient(s, t, StartCall(started)); DeliveryInv(Up(r.phase), r.worker, r.pushQ, r.log)
  {
    LogGrows(s.log, StreamStart(started));
  }

  lemma {:induction false} ClientKeepsDelivery(s: State, t: Tid, op: ClientOp)
    requires EnabledClient(s, t, op) && !op.StartReturn? && !op.AppendPush?
    requires DeliveryInv(Up(s.phase), s.worker, s.pushQ, s.log)
    ensures var r := StepClient(s, t, op); DeliveryInv(Up(r.phase), r.worker, r.pushQ, r.log)
  {
    hide DeliveryInv;
    match op
    case StartCall(started) => StartCallKeepsDelivery(s, t, started);
    case _ =>
  }

  lemma {:induction false} StopCallKeepsDelivery(s: State, t: Tid, reply: Reply)
    requires EnabledStop(s, t, StopCall(reply))
    requires DeliveryInv(Up(s.phase), s.worker, s.pushQ, s.log)
    ensures var r := StepStop(s, t, StopCall(reply)); DeliveryInv(Up(r.phase), r.worker, r.pushQ, r.log)
  {
    LogGrows(s.log, StreamStop(s.clients[t].handle, reply));
  }

  lemma {:induction false} ClosePushKeepsDelivery(s: State, t: Tid)
    requires EnabledStop(s, t, StopClosePush)
    requires DeliveryInv(Up(s.phase), s.worker, s.pushQ, s.log)
    ensures var r := StepStop(s, t, StopClosePush); DeliveryInv(Up(r.phase), r.worker, r.pushQ, r.log)
  {
  }

  lemma {:induction false} StopKeepsDelivery(s: State, t: Tid, op: StopOp)
    requires EnabledStop(s, t, op) && (op.StopEnter? || Up(s.phase))
    requires DeliveryInv(Up(s.phase), s.worker, s.pushQ, s.log)
    ensures var r := StepStop(s, t, op); DeliveryInv(Up(r.phase), r.worker, r.pushQ, r.log)
  {
    hide DeliveryInv;
    match op
    case StopCall(reply) => StopCallKeepsDelivery(s, t, reply);
    case StopClosePush => ClosePushKeepsDelivery(s, t);
    case _ =>
  }

  lemma {:induction false} WorkerPopKeepsDelivery(s: State, w: Tid)
    requires EnabledWorker(s, WorkerPop(w))
    requires DeliveryInv(Up(s.phase), s.worker, s.pushQ, s.log)
    ensures var r := StepWorker(s, WorkerPop(w)); DeliveryInv(Up(r.phase), r.worker, r.pushQ, r.log)
  {
    hide QueueInv;
    PopPreserves(s.pushQ, WORKER, false, w);
  }

  lemma {:induction false} WorkerCallKeepsDelivery(s: State, reply: Reply)
    requires EnabledWorker(s, WorkerCall(reply))
    requires DeliveryInv(Up(s.phase), s.worker, s.pushQ, s.log)
    ensures var r := StepWorker(s, WorkerCall(reply)); DeliveryInv(Up(r.phase), r.worker, r.pushQ, r.log)
  {
    var c := StreamPush(s.worker.handle, s.worker.chunk, reply);
    LogGrows(s.log, c);
    assert (s.log + [c])[|s.log|] == c;
  }

  lemma {:induction false} WorkerRestKeepsDelivery(s: State, op: WorkerOp)
    requires EnabledWorker(s, op) && !op.WorkerPop? && !op.WorkerCall?
    requires DeliveryInv(Up(s.phase), s.worker, s.pushQ, s.log)
    ensures var r := StepWorker(s, op); DeliveryInv(Up(r.phase), r.worker, r.pushQ, r.log)
  {
    hide QueueInv;
    if op.WorkerClosePush? {
      StepPreserves(s.pushQ, Close);
    }
  }

  lemma {:induction false} WorkerKeepsDelivery(s: State, op: WorkerOp)
    requires EnabledWorker(s, op)
    requires DeliveryInv(Up(s.phase), s.worker, s.pushQ, s.log)
    ensures var r := StepWorker(s, op); DeliveryInv(Up(r.phase), r.worker, r.pushQ, r.log)
  {
    hide DeliveryInv;
    match op
    case WorkerPop(w) => WorkerPopKeepsDelivery(s, w);
    case WorkerCall(reply) => WorkerCallKeepsDelivery(s, reply);
    case _ => WorkerRestKeepsDelivery(s, op);
  }

  lemma {:induction false} WakeKeepsDelivery(s: State, op: WakeOp)
    requires EnabledWake(s, op)
    requires DeliveryInv(Up(s.phase), s.worker, s.pushQ, s.log)
    ensures var r := StepWake(s, op); DeliveryInv(Up(r.phase), r.worker, r.pushQ, r.log)
  {
    match op
    case WakeAppender(t) => StepPreserves(s.pushQ, WakeProducer(t));
    case WakeWorker => StepPreserves(s.pushQ, WakeConsumer(WORKER));
    case WakeReader(t) =>
  }

  // The commands of the log: where the stop stands, and whose handle they carry

  ghost predicate LogsFit(s: State) {
    StopInv(s.phase == Stopped, s.worker, s.log) && HandleInv(Up(s.phase), s.handle, s.worker, s.log)
  }

  lemma {:induction false} StartReturnKeepsLog(s: State, t: Tid)
    requires EnabledClient(s, t, StartReturn) && s.phase == Starting
    requires StreamStart(s.clients[t].started) in s.log
    requires LogsFit(s) && s.worker.NotStarted?
    ensures LogsFit(StepClient(s, t, StartReturn))
  {
  }

  lemma StartKeepsStop(log: seq<Command>, worker: WorkerPc, started: StartReply)
    requires StopInv(false, worker, log)
    ensures StopInv(false, worker, log + [StreamStart(started)])
  {
    LogGrows(log, StreamStart(started));
  }

  lemma StartKeepsHandle(log: seq<Command>, handle: string, worker: WorkerPc, started: StartReply)
    requires HandleInv(false, handle, worker, log)
    ensures HandleInv(false, handle, worker, log + [StreamStart(started)])
  {
  }

  lemma {:induction false} StartCallKeepsLog(s: State, t: Tid, started: StartReply)
    requires EnabledClient(s, t, StartCall(started)) && s.phase == Starting
    requires StopInv(s.phase == Stopped, s.worker, s.log) && HandleInv(Up(s.phase), s.handle, s.worker, s.log)
    ensures var r := StepClient(s, t, StartCall(started));
            StopInv(r.phase == Stopped, r.worker, r.log) && HandleInv(Up(r.phase), r.handle, r.worker, r.log)
  {
    hide StopInv, HandleInv;
    StartKeepsStop(s.log, s.worker, started);
    StartKeepsHandle(s.log, s.handle, s.worker, started);
  }

  lemma {:induction false} ClientKeepsLog(s: State, t: Tid, op: ClientOp)
    requires EnabledClient(s, t, op) && !op.StartReturn?
    requires op.StartCall? ==> s.phase == Starting
    requires LogsFit(s) && (s.worker.NotStarted? || Up(s.phase))
    ensures LogsFit(StepClient(s, t, op))
  {
    hide StopInv, HandleInv;
    match op
    case StartCall(started) => StartCallKeepsLog(s, t, started);
    case _ =>
  }

  lemma {:induction false} StopKeepsLog(s: State, t: Tid, op: StopOp)
    requires EnabledStop(s, t, op) && (op.StopEnter? || s.phase == Stopped)
    requires op.StopCall? ==> Fits(s.clients[t], FactsOf(s))
    requires StopInv(s.phase == Stopped, s.worker, s.log) && HandleInv(Up(s.phase), s.handle, s.worker, s.log)
    ensures LogsFit(StepStop(s, t, op))
  {
    match op
    case StopCall(reply) => LogGrows(s.log, StreamStop(s.clients[t].handle, reply));
    case _ =>
  }

  lemma {:induction false} WorkerKeepsLog(s: State, op: WorkerOp)
    requires EnabledWorker(s, op) && Up(s.phase)
    requires StopInv(s.phase == Stopped, s.worker, s.log) && HandleInv(Up(s.phase), s.handle, s.worker, s.log)
    ensures LogsFit(StepWorker(s, op))
  {
    match op
    case WorkerCall(reply) => LogGrows(s.log, StreamPush(s.worker.handle, s.worker.chunk, reply));
    case _ =>
  }

  // The results

  lemma {:induction false} ReadPopKeepsResult(s: State, t: Tid, expired: bool, w: Tid)
    requires EnabledClient(s, t, ReadPop(expired, w)) && Up(s.phase)
    requires ResultInv(s.phase, s.resultQ, s.finalResult, s.hasFinal, s.handed)
    ensures var r := StepClient(s, t, ReadPop(expired, w));
            ResultInv(r.phase, r.resultQ, r.finalResult, r.hasFinal, r.handed)
  {
    hide QueueInv;
    PopPreserves(s.resultQ, t, expired, w);
    if s.resultQ.items != [] {
      HandedGrows(s.handed, FromQueue(s.resultQ.items[0]));
    }
  }

  lemma {:induction false} ClientKeepsResult(s: State, t: Tid, op: ClientOp)
    requires EnabledClient(s, t, op) && !op.ReadPop?
    requires op.StartReturn? ==> s.phase == Starting
    requires op.ReadFinal? ==> Up(s.phase) && s.resultQ.Drained() && (s.hasFinal ==> s.phase == Stopped)
    requires ResultInv(s.phase, s.resultQ, s.finalResult, s.hasFinal, s.handed)
    ensures var r := StepClient(s, t, op); ResultInv(r.phase, r.resultQ, r.finalResult, r.hasFinal, r.handed)
  {
    match op
    case ReadFinal =>
      if s.hasFinal { HandedGrows(s.handed, Final(s.finalResult.value)); }
    case _ =>
  }

  lemma {:induction false} ClosingKeepsResult(s: State, t: Tid, op: StopOp)
    requires EnabledStop(s, t, op) && (op.StopEnter? || op.StopCloseResult?)
    requires ResultInv(s.phase, s.resultQ, s.finalResult, s.hasFinal, s.handed)
    ensures var r := StepStop(s, t, op); ResultInv(r.phase, r.resultQ, r.finalResult, r.hasFinal, r.handed)
  {
  }

  lemma {:induction false} FinalKeepsResult(s: State, t: Tid, op: StopOp)
    requires EnabledStop(s, t, op) && (op.StopStore? || op.StopFlag?) && s.phase == Stopped
    requires Fits(s.clients[t], FactsOf(s))
    requires ResultInv(s.phase, s.resultQ, s.finalResult, s.hasFinal, s.handed)
    ensures var r := StepStop(s, t, op); ResultInv(r.phase, r.resultQ, r.finalResult, r.hasFinal, r.handed)
  {
  }

  lemma {:induction false} StopKeepsResult(s: State, t: Tid, op: StopOp)
    requires EnabledStop(s, t, op) && (op.StopEnter? || s.phase == Stopped)
    requires op.StopStore? || op.StopFlag? ==> Fits(s.clients[t], FactsOf(s))
    requires ResultInv(s.phase, s.resultQ, s.finalResult, s.hasFinal, s.handed)
    ensures var r := StepStop(s, t, op); ResultInv(r.phase, r.resultQ, r.finalResult, r.hasFinal, r.handed)
  {
    hide ResultInv, Fits;
    match op
    case StopEnter => ClosingKeepsResult(s, t, op);
    case StopCloseResult => ClosingKeepsResult(s, t, op);
    case StopStore => FinalKeepsResult(s, t, op);
    case StopFlag => FinalKeepsResult(s, t, op);
    case _ =>
  }

  lemma {:induction false} WorkerKeepsResult(s: State, op: WorkerOp)
    requires EnabledWorker(s, op) && Up(s.phase)
    requires ResultInv(s.phase, s.resultQ, s.finalResult, s.hasFinal, s.handed)
    ensures var r := StepWorker(s, op); ResultInv(r.phase, r.resultQ, r.finalResult, r.hasFinal, r.handed)
  {
    hide QueueInv;
    match op
    case WorkerStore(w) =>
      if s.worker.reply.Good? { TryPushPreserves(s.resultQ, s.worker.reply.result, w); }
    case WorkerCloseResult => StepPreserves(s.resultQ, CloseWithError(s.worker.error));
    case _ =>
  }

  lemma {:induction false} WakeKeepsResult(s: State, op: WakeOp)
    requires EnabledWake(s, op)
    requires ResultInv(s.phase, s.resultQ, s.finalResult, s.hasFinal, s.handed)
    ensures var r := StepWake(s, op); ResultInv(r.phase, r.resultQ, r.finalResult, r.hasFinal, r.handed)
  {
    match op
    case WakeReader(t) => StepPreserves(s.resultQ, WakeConsumer(t));
    case _ =>
  }

  // The final result

  lemma {:induction false} ClientKeepsFinal(s: State, t: Tid, op: ClientOp)
    requires EnabledClient(s, t, op)
    requires op.StartCall? || op.StartReturn? ==> s.finalResult.None?
    requires ResultInv(s.phase, s.resultQ, s.finalResult, s.hasFinal, s.handed)
    requires FinalInv(s.handle, s.log, s.finalResult, s.handed)
    ensures var r := StepClient(s, t, op); FinalInv(r.handle, r.log, r.finalResult, r.handed)
  {
    match op
    case ReadPop(expired, w) =>
      if s.resultQ.items != [] { HandedGrows(s.handed, FromQueue(s.resultQ.items[0])); }
    case _ =>
  }

  lemma {:induction false} StopKeepsFinal(s: State, t: Tid, op: StopOp)
    requires EnabledStop(s, t, op)
    requires op.StopStore? || op.StopCall? ==> Fits(s.clients[t], FactsOf(s))
    requires op.StopCall? ==> s.finalResult.None?
    requires FinalInv(s.handle, s.log, s.finalResult, s.handed)
    ensures var r := StepStop(s, t, op); FinalInv(r.handle, r.log, r.finalResult, r.handed)
  {
  }

  lemma {:induction false} WorkerKeepsFinal(s: State, op: WorkerOp)
    requires EnabledWorker(s, op) && (op.WorkerCall? ==> s.finalResult.None?)
    requires FinalInv(s.handle, s.log, s.finalResult, s.handed)
    ensures var r := StepWorker(s, op); FinalInv(r.handle, r.log, r.finalResult, r.handed)
  {
  }

  lemma NoFinalBeforeStop(s: State)
    requires NoStop(s.log) && FinalInv(s.handle, s.log, s.finalResult, s.handed)
    ensures s.finalResult.None?
  {
  }

  lemma {:induction false} ClientPreserves(s: State, t: Tid, op: ClientOp)
    requires Inv(s) && EnabledClient(s, t, op)
    ensures Inv(StepClient(s, t, op))
  {
    hide WaitersFit, HandleInv;
    if t in s.clients { assert Fits(s.clients[t], FactsOf(s)); }
    if op.StartCall? || op.StartReturn? { NoFinalBeforeStop(s); }
    ClientKeepsThreads(s, t, op);
    ClientKeepsWaiters(s, t, op);
    ClientKeepsFinal(s, t, op);
    match op {
      case StartReturn =>
        NobodyElseStarts(s, t);
        StartReturnKeepsDelivery(s, t);
        StartReturnKeepsLog(s, t);
        ClientKeepsResult(s, t, op);
      case AppendPush(w) =>
        ClientKeepsFit(s, t, op);
        AppendKeepsDelivery(s, t, w);
        ClientKeepsLog(s, t, op);
        ClientKeepsResult(s, t, op);
      case ReadPop(expired, w) =>
        ClientKeepsFit(s, t, op);
        ClientKeepsDelivery(s, t, op);
        ClientKeepsLog(s, t, op);
        ReadPopKeepsResult(s, t, expired, w);
      case _ =>
        ClientKeepsFit(s, t, op);
        ClientKeepsDelivery(s, t, op);
        ClientKeepsLog(s, t, op);
        ClientKeepsResult(s, t, op);
    }
  }

  lemma {:induction false} StopPreserves(s: State, t: Tid, op: StopOp)
    requires Inv(s) && EnabledStop(s, t, op)
    ensures Inv(StepStop(s, t, op))
  {
    if t in s.clients { assert Fits(s.clients[t], FactsOf(s)); }
    if op.StopCall? { NoFinalBeforeStop(s); }
    StopKeepsThreads(s, t, op);
    StopKeepsWaiters(s, t, op);
    StopKeepsFit(s, t, op);
    StopKeepsDelivery(s, t, op);
    StopKeepsLog(s, t, op);
    StopKeepsResult(s, t, op);
    StopKeepsFinal(s, t, op);
  }

  lemma WorkerLeavesClients(s: State, op: WorkerOp)
    requires EnabledWorker(s, op) && ThreadsInv(s.phase, s.mutex, s.clients)
    ensures var r := StepWorker(s, op); ThreadsInv(r.phase, r.mutex, r.clients)
  {
  }

  lemma {:induction false} WorkerPreserves(s: State, op: WorkerOp)
    requires Inv(s) && EnabledWorker(s, op)
    ensures Inv(StepWorker(s, op))
  {
    if op.WorkerCall? { NoFinalBeforeStop(s); }
    WorkerLeavesClients(s, op);
    WorkerKeepsWaiters(s, op);
    WorkerKeepsFit(s, op);
    WorkerKeepsDelivery(s, op);
    WorkerKeepsLog(s, op);
    WorkerKeepsResult(s, op);
    WorkerKeepsFinal(s, op);
  }

  lemma {:induction false} WakePreserves(s: State, op: WakeOp)
    requires Inv(s) && EnabledWake(s, op)
    ensures Inv(StepWake(s, op))
  {
    WakeKeepsWaiters(s, op);
    WakeKeepsFit(s, op);
    WakeKeepsDelivery(s, op);
    WakeKeepsResult(s, op);
  }

  lemma {:induction false} StepKeepsInv(s: State, a: Action)
    requires Inv(s) && Enabled(s, a)
    ensures Inv(Step(s, a))
  {
    match a
    case Client(t, op) => ClientPreserves(s, t, op);
    case Stopper(t, op) => StopPreserves(s, t, op);
    case Worker(op) => WorkerPreserves(s, op);
    case Wake(op) => WakePreserves(s, op);
  }

  lemma {:induction false} RunKeepsInv(s: State, run: seq<Action>)
    requires Inv(s) && Legal(s, run)
    ensures Inv(Run(s, run))
    decreases |run|
  {
    if run != [] {
      StepKeepsInv(s, run[0]);
      RunKeepsInv(Step(s, run[0]), run[1..]);
    }
  }
}
