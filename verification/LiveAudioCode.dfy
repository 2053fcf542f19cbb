/**
  The session object of sdk/cpp/src/live_audio_session.cpp with its fields and its
  two queues, changed in place by Start, Append, TryGetNext, Stop and PushWorkerLoop.

  Between any two steps of a method other threads may take any number of steps of
  their own.  The history records all steps, so that everything proved about runs
  holds of the object at any time.
*/
module LiveAudioCode {
  import opened ThreadSafeQueue
  import opened LiveAudioSession
  import opened LiveAudioInvariant
  import opened LiveAudioProperties
  import opened LiveAudioRely

  /** What TryGetNext comes back with; a reader may also be left asleep in the queue. */
  datatype Next = NotReady | Result(result: Transcription) | TimedOut | Over | Broken | Waiting

  lemma Extends(s: State, run: seq<Action>, a: Action)
    requires Legal(s, run) && Enabled(Run(s, run), a)
    ensures Legal(s, run + [a]) && Run(s, run + [a]) == Step(Run(s, run), a)
    decreases |run|
  {
    hide Enabled, Step;
    if run == [] {
      assert [] + [a] == [a];
    } else {
      assert (run + [a])[0] == run[0] && (run + [a])[1..] == run[1..] + [a];
      Extends(Step(s, run[0]), run[1..], a);
    }
  }

  /** The state to which a history leads from a new session, and so within the invariant of all runs. */
  ghost predicate Reached(s: State, history: seq<Action>) {
    Inv(s) && Legal(Init(), history) && Run(Init(), history) == s
  }

  lemma StaysReached(s: State, history: seq<Action>, a: Action)
    requires Reached(s, history) && Enabled(s, a)
    ensures Reached(Step(s, a), history + [a])
  {
    hide Inv, Enabled, Step;
    StepKeepsInv(s, a);
    Extends(Init(), history, a);
  }

  // ---------------------------------------------------------------------
  // What the methods need of the invariant
  // ---------------------------------------------------------------------

  lemma QueuesFit(s: State)
    requires Inv(s)
    ensures QueueInv(s.pushQ) && QueueInv(s.resultQ) && WORKER !in s.clients
    ensures s.pushQ.closed ==> WORKER !in s.pushQ.notEmpty.asleep
    ensures Up(s.phase) <==> !s.worker.NotStarted?
  {
  }

  lemma ReachedInv(s: State, history: seq<Action>)
    requires Reached(s, history)
    ensures Inv(s)
  {
  }

  lemma ReachedFits(s: State, history: seq<Action>)
    requires Reached(s, history)
    ensures QueueInv(s.pushQ) && QueueInv(s.resultQ)
  {
    hide QueueInv;
    QueuesFit(s);
  }

  /** The mutex belongs to a Stop that is closing the queues. */
  lemma OwnerFacts(s: State)
    requires Inv(s)
    ensures s.mutex.Some? ==> s.mutex.value in s.clients && s.clients[s.mutex.value].HoldsMutex()
    ensures forall t :: t in s.clients && s.clients[t].HoldsMutex() ==> s.mutex == Some(t)
    ensures WORKER !in s.clients
  {
  }

  lemma StarterFacts(s: State, t: Tid)
    requires Inv(s) && t in s.clients && s.clients[t].IsStart()
    ensures s.phase == Starting && s.mutex.None? && s.clients[t].capacity > 0
  {
    hide QueueInv;
    assert Fits(s.clients[t], FactsOf(s));
  }

  /** Where Stop is tells what it has done. */
  lemma StopperFacts(s: State, t: Tid)
    requires Inv(s) && Stopping(s, t)
    ensures s.phase == Stopped && (!s.clients[t].HoldsMutex() ==> s.mutex.None?)
    ensures s.clients[t].PastClosing() ==> s.pushQ.closed && s.resultQ.closed
    ensures s.clients[t].StopJoining? || s.clients[t].StopCalling? ==> s.clients[t].handle == s.handle
    ensures s.clients[t].StopCalling? ==> s.worker.Done?
  {
    hide QueueInv;
    assert Fits(s.clients[t], FactsOf(s));
  }

  lemma IdleIsAwake(s: State, t: Tid)
    requires Inv(s) && s.Idle(t)
    ensures t !in s.pushQ.notFull.asleep && t !in s.resultQ.notEmpty.asleep
  {
    assert t in s.pushQ.notFull.asleep ==> t in s.pushQ.notFull.Waiting();
    assert t in s.resultQ.notEmpty.asleep ==> t in s.resultQ.notEmpty.Waiting();
  }

  lemma FinalIsTheReply(s: State, reply: Reply)
    requires Inv(s) && EndsWith(s.log, StreamStop(s.handle, reply))
    ensures s.finalResult.Some? ==> reply == Good(s.finalResult.value)
  {
  }

  lemma HistoryAccepts(s: State, history: seq<Action>)
    requires Reached(s, history)
    ensures Pushes(s.log) <= Accepted(Init(), history)
    ensures !NoStop(s.log) && NoPushFailed(s.log) ==> Pushes(s.log) == Accepted(Init(), history)
    ensures Accepted(Init(), history) == s.pushQ.pushed && Stored(Init(), history) == s.resultQ.pushed
  {
    InitInv();
    hide Inv, Legal, Run, Accepted, Stored, Pushes;
    AcceptedIsPushed(Init(), history);
    StoredIsPushed(Init(), history);
    DeliveredSoFar(s);
  }

  /** A worker that has come to its end without a failed push has pushed everything. */
  lemma DoneHasPushed(s: State)
    requires Inv(s) && s.worker.Done? && NoPushFailed(s.log)
    ensures Pushes(s.log) == s.pushQ.pushed
  {
  }

  // ---------------------------------------------------------------------
  // A failing worker
  // ---------------------------------------------------------------------

  ghost predicate LastPushFailed(log: seq<Command>, error: string) {
    log != [] && log[|log| - 1].StreamPush? && log[|log| - 1].reply == Failed(error)
  }

  /** If a push has failed, it was the last command, and its error is what the worker makes known. */
  ghost predicate FailureShown(s: State) {
    NoPushFailed(s.log) ||
    match s.worker
    case FailClosingPush(error) => LastPushFailed(s.log, error)
    case FailClosingResult(error) => LastPushFailed(s.log, error)
    case Recording(error) => LastPushFailed(s.log, error) && s.resultQ.hasError
    case Done => LastPushFailed(s.log, s.errorMessage) && s.resultQ.hasError
    case _ => false
  }

  lemma CallShows(log: seq<Command>, c: Command)
    requires c.StreamPush? && NoPushFailed(log)
    ensures if c.reply.Failed? then LastPushFailed(log + [c], c.reply.error) else NoPushFailed(log + [c])
  {
  }

  lemma {:induction false} WorkerShowsFailure(s: State, op: WorkerOp)
    requires FailureShown(s) && EnabledWorker(s, op)
    ensures FailureShown(StepWorker(s, op))
  {
    if op.WorkerCall? {
      CallShows(s.log, StreamPush(s.worker.handle, s.worker.chunk, op.reply));
    }
    hide NoPushFailed, LastPushFailed;
  }

  lemma OthersShowFailure(s: State, r: State)
    requires FailureShown(s) && Running(s.worker) && Up(s.phase) && Rely(s, r, {WORKER})
    ensures FailureShown(r)
  {
    hide NoPushFailed, LastPushFailed, NoFinal;
  }

  // ---------------------------------------------------------------------
  // Between two steps
  // ---------------------------------------------------------------------

  /** Whoever waits for the worker's end still does. */
  ghost predicate JoinersWait(before: Clients, after: Clients) {
    forall t :: t in before && before[t].StopJoining? ==> t in after && after[t] == before[t]
  }

  lemma JoinersWaitOn(a: Clients, b: Clients, c: Clients)
    requires JoinersWait(a, b) && JoinersWait(b, c)
    ensures JoinersWait(a, c)
  {
  }

  lemma StaysPut(s: State, r: State, who: set<Tid>, t: Tid)
    requires Rely(s, r, who) && t in who && t in s.clients
    ensures t in r.clients && r.clients[t] == s.clients[t]
  {
  }

  lemma OwnerGoesOn(s: State, h: Tid, op: StopOp)
    requires Inv(s) && EnabledStop(s, h, op) && h in s.clients && s.clients[h].HoldsMutex()
    ensures var r := StepStop(s, h, op);
            r.mutex.Some? ==> r.mutex == Some(h) && h in r.clients && r.clients[h].HoldsMutex()
                              && StopRank(r.clients[h]) < StopRank(s.clients[h])
  {
    OwnerFacts(s);
    hide Inv;
  }

  lemma WorkerUndisturbed(s: State, r: State)
    requires Inv(s) && Rely(s, r, {WORKER}) && Running(s.worker)
    ensures r.worker == s.worker && (s.pushQ.closed ==> r.pushQ.closed && r.pushQ.items == s.pushQ.items)
    ensures JoinersWait(s.clients, r.clients) && (FailureShown(s) ==> FailureShown(r))
  {
    QueuesFit(s);
    hide Inv, FailureShown;
    if FailureShown(s) {
      OthersShowFailure(s, r);
    }
    hide PlacesKept, SessionKept, StopKept;
  }

  lemma {:induction false} WorkerGoesOn(s: State, op: WorkerOp)
    requires EnabledWorker(s, op) && WORKER !in s.clients
    ensures var r := StepWorker(s, op);
            && r.clients == s.clients && r.worker != NotStarted && Rely(s, r, {})
            && (s.pushQ.closed ==> r.pushQ.closed
                                   && WorkerRank(r.worker, |r.pushQ.items|) < WorkerRank(s.worker, |s.pushQ.items|))
            && (FailureShown(s) ==> FailureShown(r))
  {
    hide FailureShown, Rely, PopPass, TryPushPass;
    WorkerRely(s, op, {});
    if s.pushQ.closed {
      WorkerStepDecreases(s, op);
    }
    if FailureShown(s) {
      WorkerShowsFailure(s, op);
    }
    if op.WorkerPop? {
      PassesKeepClosed(s.pushQ, WORKER, [], false, op.w);
    }
  }

  /** What a thread inside Stop finds unchanged. */
  lemma StopUndisturbed(s: State, r: State, t: Tid)
    requires Inv(s) && Inv(r) && Rely(s, r, {t}) && Stopping(s, t)
    ensures t in r.clients && r.clients[t] == s.clients[t] && r.phase == Stopped && r.handle == s.handle
    ensures s.worker == Done ==> r.worker == Done && r.log == s.log && r.finalResult == s.finalResult
    ensures s.worker == Done ==>
              r.resultQ.hasError == s.resultQ.hasError && r.resultQ.errorMessage == s.resultQ.errorMessage
    ensures s.hasFinal || !NoFinal(s.handed) ==> r.hasFinal || !NoFinal(r.handed)
    ensures !r.clients[t].HoldsMutex() ==> r.mutex == None
  {
    StopperFacts(s, t);
    StopperFacts(r, t);
    hide Inv, NoFinal;
  }

  lemma LockedUndisturbed(s: State, r: State, t: Tid)
    requires Rely(s, r, {t}) && t !in s.clients && s.phase == Stopped
    ensures t !in r.clients && r.phase == Stopped
  {
    hide WorkerKept, StopKept;
  }

  lemma SessionStays(s: State, r: State)
    requires Rely(s, r, {}) && Up(s.phase)
    ensures r.handle == s.handle
  {
  }

  lemma StopIsLogged(log: seq<Command>, handle: string, reply: Reply)
    requires EndsWith(log, StreamStop(handle, reply))
    ensures !NoStop(log)
  {
  }

  lemma StartIsLogged(s: State)
    requires Inv(s) && Up(s.phase)
    ensures StreamStart(Handle(s.handle)) in s.log
  {
  }

  lemma StaysAwake(s: State, r: State, t: Tid)
    requires Rely(s, r, {t})
    ensures t !in s.pushQ.notFull.asleep ==> t !in r.pushQ.notFull.asleep
    ensures t !in s.resultQ.notEmpty.asleep ==> t !in r.resultQ.notEmpty.asleep
  {
  }

  /** A reader that looks for the final result has found the queue drained. */
  lemma ReaderFacts(s: State, t: Tid)
    requires Inv(s) && t in s.clients && s.clients[t] == ReadingFinal
    ensures s.resultQ.Drained() && (s.hasFinal ==> s.finalResult.Some? && NoFinal(s.handed))
  {
    hide QueueInv, NoFinal;
    assert Fits(s.clients[t], FactsOf(s));
  }

  ghost predicate EndsWithResult(handed: seq<Handed>, result: Transcription) {
    handed != [] && handed[|handed| - 1].result == result
  }

  /** Readers have got stored results in order; a final result came behind all of them, from the stop. */
  ghost predicate HandedOut(s: State, history: seq<Action>, result: Transcription)
    requires Legal(Init(), history)
  {
    && Queued(s.handed) <= Stored(Init(), history) && FinalIsLast(s.handed)
    && (!NoFinal(s.handed) ==>
          Queued(s.handed) == Stored(Init(), history) && EndsWith(s.log, StreamStop(s.handle, Good(result))))
  }

  lemma ReachedHandedOut(s: State, history: seq<Action>)
    requires Reached(s, history)
    ensures Legal(Init(), history)
    ensures forall result :: EndsWithResult(s.handed, result) ==> HandedOut(s, history, result)
  {
    HandedSoFar(s);
    HistoryAccepts(s, history);
  }

  lemma ReadEntered(s: State, t: Tid)
    requires EnabledClient(s, t, ReadEnter)
    ensures var r := StepClient(s, t, ReadEnter);
            && r.resultQ == s.resultQ && r.phase == s.phase
            && if Up(s.phase) then t in r.clients && r.clients[t] == Reading else r == s
  {
  }

  lemma AppendEffects(s: State, t: Tid, w: Tid)
    requires EnabledClient(s, t, AppendPush(w)) && s.clients[t].Appending? && QueueInv(s.pushQ)
    ensures var r, chunk := StepClient(s, t, AppendPush(w)), s.clients[t].chunk;
            match PushPass(s.pushQ, t, chunk, false, w).1
            case Enqueued => t !in r.clients && r.pushQ.pushed == s.pushQ.pushed + [chunk] && !r.pushQ.closed
            case Rejected => t !in r.clients && r.pushQ.closed
            case PushBlocked =>
              t in r.pushQ.notFull.asleep && |r.pushQ.items| == r.pushQ.capacity && !r.pushQ.closed
  {
  }

  lemma ReadEffects(s: State, t: Tid, expired: bool, w: Tid)
    requires EnabledClient(s, t, ReadPop(expired, w)) && QueueInv(s.resultQ)
    ensures var r := StepClient(s, t, ReadPop(expired, w));
            match PopPass(s.resultQ, t, expired, w).1
            case Item(value) => t !in r.clients && r.handed == s.handed + [FromQueue(value)]
            case Timeout => t !in r.clients && expired && r.resultQ.items == [] && !r.resultQ.closed
            case Error => t !in r.clients && r.resultQ.hasError && r.resultQ.items == []
            case Closed => t in r.clients && r.clients[t] == ReadingFinal
            case PopBlocked => t in r.resultQ.notEmpty.asleep && r.resultQ.items == [] && !r.resultQ.closed
  {
  }

  ghost predicate EndsWithChunk(chunks: seq<Chunk>, chunk: Chunk) { chunks != [] && chunks[|chunks| - 1] == chunk }

  class Session {
    var phase: Phase
    var mutex: Option<Tid>
    var handle: string
    var pushQ: Queue<Chunk>
    var resultQ: Queue<Transcription>
    var clients: map<Tid, Pc>
    var worker: WorkerPc
    var finalResult: Option<Transcription>
    var hasFinal: bool
    var errorMessage: string
    ghost var log: seq<Command>
    ghost var handed: seq<Handed>
    ghost var history: seq<Action>

    ghost function View(): State
      reads this, pushQ, resultQ
    {
      State.Session(phase, mutex, handle, pushQ.View(), resultQ.View(), clients, worker, finalResult, hasFinal,
                    errorMessage, log, handed)
    }

    ghost predicate Valid()
      reads this, pushQ, resultQ
    {
      Reached(View(), history)
    }

    twostate predicate QueuesOwned()
      reads this
    {
      (pushQ == old(pushQ) || fresh(pushQ)) && (resultQ == old(resultQ) || fresh(resultQ))
    }

    twostate predicate Stepped(a: Action)
      reads this, pushQ, resultQ
    {
      && Valid() && QueuesOwned() && history == old(history) + [a]
      && Enabled(old(View()), a) && View() == Step(old(View()), a)
    }

    constructor ()
      ensures Valid() && View() == Init() && history == [] && fresh(pushQ) && fresh(resultQ)
    {
      phase, mutex, handle := Created, None, "";
      pushQ := new Queue(0);
      resultQ := new Queue(0);
      clients, worker := map[], NotStarted;
      finalResult, hasFinal, errorMessage := None, false, "";
      log, handed, history := [], [], [];
      new;
      InitInv();
    }

    ghost method Record(before: State, a: Action)
      requires Reached(before, history) && Enabled(before, a) && View() == Step(before, a)
      modifies this`history
      ensures Valid() && history == old(history) + [a]
    {
      hide Reached, Enabled, Step;
      StaysReached(before, history, a);
      history := history + [a];
    }

    // -------------------------------------------------------------------
    // Steps
    // -------------------------------------------------------------------

    method StartEnter(t: Tid, requestedCapacity: int) returns (ok: bool)
      requires Valid() && EnabledClient(View(), t, ClientOp.StartEnter(requestedCapacity))
      modifies this
      ensures Stepped(Client(t, ClientOp.StartEnter(requestedCapacity)))
      ensures ok == (old(phase) == Created && requestedCapacity > 0)
    {
      hide Reached;
      ghost var before := View();
      ok := false;
      if phase == Created {
        phase := Starting;
        if requestedCapacity <= 0 {
          phase := Created;
        } else {
          clients := clients[t := StartCalling(requestedCapacity)];
          ok := true;
        }
      }
      assert EnabledClient(before, t, ClientOp.StartEnter(requestedCapacity));
      assert View() == StepClient(before, t, ClientOp.StartEnter(requestedCapacity));
      hide StepClient, EnabledClient;
      Record(before, Client(t, ClientOp.StartEnter(requestedCapacity)));
    }

    /** The core is called without the mutex. */
    method StartCall(t: Tid, reply: StartReply)
      requires Valid() && EnabledClient(View(), t, ClientOp.StartCall(reply))
      modifies this
      ensures Stepped(Client(t, ClientOp.StartCall(reply)))
    {
      hide Reached;
      ghost var before := View();
      log := log + [StreamStart(reply)];
      clients := clients[t := StartReturning(clients[t].capacity, reply)];
      assert EnabledClient(before, t, ClientOp.StartCall(reply));
      assert View() == StepClient(before, t, ClientOp.StartCall(reply));
      hide StepClient, EnabledClient;
      Record(before, Client(t, ClientOp.StartCall(reply)));
    }

    method StartReturn(t: Tid) returns (ok: bool)
      requires Valid() && EnabledClient(View(), t, ClientOp.StartReturn)
      modifies this
      ensures Stepped(Client(t, ClientOp.StartReturn)) && ok == (phase == Started)
    {
      hide Reached, StepClient, EnabledClient;
      ghost var before := View();
      ok := FinishStart(t);
      Record(before, Client(t, ClientOp.StartReturn));
    }

    method FinishStart(t: Tid) returns (ok: bool)
      requires EnabledClient(View(), t, ClientOp.StartReturn)
      modifies this
      ensures View() == StepClient(old(View()), t, ClientOp.StartReturn) && QueuesOwned()
      ensures ok == (phase == Started) && history == old(history)
    {
      hide QueueInv;
      var pc := clients[t];
      clients := clients - {t};
      if pc.started.StartFailed? {
        phase := Created;
        return false;
      }
      handle := pc.started.handle;
      if handle == "" {
        phase := Created;
        return false;
      }
      CreateQueues(pc.capacity);
      phase := Started;
      worker := Popping;
      return true;
    }

    method CreateQueues(capacity: nat)
      modifies this`pushQ, this`resultQ
      ensures pushQ.View() == NewQueue(capacity) && resultQ.View() == NewQueue(capacity)
      ensures fresh(pushQ) && fresh(resultQ)
    {
      hide QueueInv;
      pushQ := new Queue(capacity);
      resultQ := new Queue(capacity);
    }

    method AppendEnter(t: Tid, chunk: Chunk) returns (ok: bool)
      requires Valid() && EnabledClient(View(), t, ClientOp.AppendEnter(chunk))
      modifies this
      ensures Stepped(Client(t, ClientOp.AppendEnter(chunk))) && ok == (phase == Started)
    {
      hide Reached;
      ghost var before := View();
      ok := phase == Started;
      if ok {
        clients := clients[t := Appending(chunk)];
      }
      assert EnabledClient(before, t, ClientOp.AppendEnter(chunk));
      assert View() == StepClient(before, t, ClientOp.AppendEnter(chunk));
      hide StepClient, EnabledClient;
      Record(before, Client(t, ClientOp.AppendEnter(chunk)));
    }

    /** One pass through Push; `w` is the consumer that it notified. */
    method AppendPush(t: Tid) returns (outcome: PushOutcome, w: Tid)
      requires Valid() && t in clients && clients[t].Appending? && t !in pushQ.notFull.asleep
      modifies this, pushQ
      ensures Stepped(Client(t, ClientOp.AppendPush(w)))
      ensures outcome == PushPass(old(View()).pushQ, t, old(clients)[t].chunk, false, w).1
    {
      ReachedFits(View(), history);
      hide Reached, QueueInv, PushPass, StepClient, EnabledClient;
      ghost var before := View();
      outcome, w := PushChunk(t);
      Record(before, Client(t, ClientOp.AppendPush(w)));
    }

    method PushChunk(t: Tid) returns (outcome: PushOutcome, w: Tid)
      requires QueueInv(pushQ.View()) && t in clients && clients[t].Appending? && t !in pushQ.notFull.asleep
      modifies this`clients, pushQ
      ensures EnabledClient(old(View()), t, ClientOp.AppendPush(w))
      ensures View() == StepClient(old(View()), t, ClientOp.AppendPush(w))
      ensures outcome == PushPass(old(View()).pushQ, t, old(clients)[t].chunk, false, w).1
    {
      hide QueueInv;
      outcome, w := pushQ.Push(t, clients[t].chunk, false);
      if outcome != PushBlocked {
        clients := clients - {t};
      }
    }

    method ReadEnter(t: Tid) returns (ok: bool)
      requires Valid() && EnabledClient(View(), t, ClientOp.ReadEnter)
      modifies this
      ensures Stepped(Client(t, ClientOp.ReadEnter)) && ok == (phase == Started || phase == Stopped)
    {
      hide Reached;
      ghost var before := View();
      ok := phase == Started || phase == Stopped;
      if ok {
        clients := clients[t := Reading];
      }
      assert EnabledClient(before, t, ClientOp.ReadEnter) && View() == StepClient(before, t, ClientOp.ReadEnter);
      hide StepClient, EnabledClient;
      Record(before, Client(t, ClientOp.ReadEnter));
    }

    /** One pass through TryPop. */
    method ReadPop(t: Tid, expired: bool) returns (outcome: PopOutcome<Transcription>, w: Tid)
      requires Valid() && t in clients && clients[t] == Reading && t !in resultQ.notEmpty.asleep
      modifies this, resultQ
      ensures Stepped(Client(t, ClientOp.ReadPop(expired, w)))
      ensures outcome == PopPass(old(View()).resultQ, t, expired, w).1
    {
      ReachedFits(View(), history);
      hide Reached, QueueInv, PopPass, StepClient, EnabledClient;
      ghost var before := View();
      outcome, w := PopResult(t, expired);
      Record(before, Client(t, ClientOp.ReadPop(expired, w)));
    }

    method PopResult(t: Tid, expired: bool) returns (outcome: PopOutcome<Transcription>, w: Tid)
      requires QueueInv(resultQ.View()) && t in clients && clients[t] == Reading && t !in resultQ.notEmpty.asleep
      modifies this`clients, this`handed, resultQ
      ensures EnabledClient(old(View()), t, ClientOp.ReadPop(expired, w))
      ensures View() == StepClient(old(View()), t, ClientOp.ReadPop(expired, w))
      ensures outcome == PopPass(old(View()).resultQ, t, expired, w).1
    {
      hide QueueInv;
      outcome, w := resultQ.Pop(t, expired);
      match outcome
      case Item(value) =>
        handed := handed + [FromQueue(value)];
        clients := clients - {t};
      case Closed => clients := clients[t := ReadingFinal];
      case PopBlocked =>
      case _ => clients := clients - {t};
    }

    /** The final result, handed out at most once. */
    method ReadFinal(t: Tid) returns (result: Option<Transcription>)
      requires Valid() && EnabledClient(View(), t, ClientOp.ReadFinal)
      modifies this
      ensures Stepped(Client(t, ClientOp.ReadFinal))
      ensures result == if old(hasFinal) then old(finalResult) else None
    {
      hide Reached;
      ghost var before := View();
      clients := clients - {t};
      result := None;
      if hasFinal && finalResult != None {
        result := finalResult;
        handed := handed + [Final(finalResult.value)];
        hasFinal := false;
      }
      assert EnabledClient(before, t, ClientOp.ReadFinal) && View() == StepClient(before, t, ClientOp.ReadFinal);
      hide StepClient, EnabledClient;
      Record(before, Client(t, ClientOp.ReadFinal));
    }

    /** Stop and the first lines of StopInternal; the mutex is kept. */
    method StopEnter(t: Tid) returns (stopping: bool)
      requires Valid() && EnabledStop(View(), t, StopOp.StopEnter)
      modifies this
      ensures Stepped(Stopper(t, StopOp.StopEnter)) && stopping == (old(phase) == Started)
    {
      hide Reached;
      ghost var before := View();
      stopping := phase == Started;
      if stopping {
        phase, mutex := Stopped, Some(t);
        clients := clients[t := StopClosingPush];
      }
      assert EnabledStop(before, t, StopOp.StopEnter) && View() == StepStop(before, t, StopOp.StopEnter);
      hide StepStop, EnabledStop;
      Record(before, Stopper(t, StopOp.StopEnter));
    }

    method StopClosePush(t: Tid)
      requires Valid() && EnabledStop(View(), t, StopOp.StopClosePush)
      modifies this, pushQ
      ensures Stepped(Stopper(t, StopOp.StopClosePush))
    {
      ReachedFits(View(), history);
      hide Reached, QueueInv;
      ghost var before := View();
      pushQ.Close();
      clients := clients[t := StopClosingResult];
      assert EnabledStop(before, t, StopOp.StopClosePush) && View() == StepStop(before, t, StopOp.StopClosePush);
      hide StepStop, EnabledStop;
      Record(before, Stopper(t, StopOp.StopClosePush));
    }

    method StopCloseResult(t: Tid)
      requires Valid() && EnabledStop(View(), t, StopOp.StopCloseResult)
      modifies this, resultQ
      ensures Stepped(Stopper(t, StopOp.StopCloseResult))
    {
      ReachedFits(View(), history);
      hide Reached, QueueInv;
      ghost var before := View();
      resultQ.Close();
      clients := clients[t := StopUnlocking];
      assert EnabledStop(before, t, StopOp.StopCloseResult) && View() == StepStop(before, t, StopOp.StopCloseResult);
      hide StepStop, EnabledStop;
      Record(before, Stopper(t, StopOp.StopCloseResult));
    }

    /** The handle copied under the mutex goes into the later stop command. */
    method StopUnlock(t: Tid)
      requires Valid() && EnabledStop(View(), t, StopOp.StopUnlock)
      modifies this
      ensures Stepped(Stopper(t, StopOp.StopUnlock))
    {
      hide Reached;
      ghost var before := View();
      mutex := None;
      clients := clients[t := StopJoining(handle)];
      assert EnabledStop(before, t, StopOp.StopUnlock) && View() == StepStop(before, t, StopOp.StopUnlock);
      hide StepStop, EnabledStop;
      Record(before, Stopper(t, StopOp.StopUnlock));
    }

    method StopJoin(t: Tid)
      requires Valid() && EnabledStop(View(), t, StopOp.StopJoin)
      modifies this
      ensures Stepped(Stopper(t, StopOp.StopJoin))
    {
      hide Reached;
      ghost var before := View();
      clients := clients[t := StopCalling(clients[t].handle)];
      assert EnabledStop(before, t, StopOp.StopJoin) && View() == StepStop(before, t, StopOp.StopJoin);
      hide StepStop, EnabledStop;
      Record(before, Stopper(t, StopOp.StopJoin));
    }

    method StopCall(t: Tid, reply: Reply)
      requires Valid() && EnabledStop(View(), t, StopOp.StopCall(reply))
      modifies this
      ensures Stepped(Stopper(t, StopOp.StopCall(reply)))
    {
      hide Reached;
      ghost var before := View();
      log := log + [StreamStop(clients[t].handle, reply)];
      clients := clients[t := StopStoring(reply)];
      assert EnabledStop(before, t, StopOp.StopCall(reply)) && View() == StepStop(before, t, StopOp.StopCall(reply));
      hide StepStop, EnabledStop;
      Record(before, Stopper(t, StopOp.StopCall(reply)));
    }

    /** The first of the two unguarded writes, or the error close. */
    method StopStore(t: Tid)
      requires Valid() && EnabledStop(View(), t, StopOp.StopStore)
      modifies this, resultQ
      ensures Stepped(Stopper(t, StopOp.StopStore))
    {
      ReachedFits(View(), history);
      hide Reached, QueueInv, StepStop;
      ghost var before := View();
      StoreReply(t);
      hide EnabledStop;
      Record(before, Stopper(t, StopOp.StopStore));
    }

    method StoreReply(t: Tid)
      requires QueueInv(resultQ.View()) && EnabledStop(View(), t, StopOp.StopStore)
      modifies this`clients, this`finalResult, resultQ
      ensures View() == StepStop(old(View()), t, StopOp.StopStore)
    {
      hide QueueInv;
      match clients[t].reply
      case Failed(error) =>
        resultQ.CloseWithError("audio_stream_stop failed: " + error);
        clients := clients[t := StopRelocking];
      case Good(result) =>
        finalResult := Some(result);
        clients := clients[t := StopFlagging];
      case _ => clients := clients[t := StopRelocking];
    }

    /** The second unguarded write. */
    method StopFlag(t: Tid)
      requires Valid() && EnabledStop(View(), t, StopOp.StopFlag)
      modifies this
      ensures Stepped(Stopper(t, StopOp.StopFlag))
    {
      hide Reached;
      ghost var before := View();
      hasFinal := true;
      clients := clients[t := StopRelocking];
      assert EnabledStop(before, t, StopOp.StopFlag) && View() == StepStop(before, t, StopOp.StopFlag);
      hide StepStop, EnabledStop;
      Record(before, Stopper(t, StopOp.StopFlag));
    }

    method StopRelock(t: Tid)
      requires Valid() && EnabledStop(View(), t, StopOp.StopRelock)
      modifies this
      ensures Stepped(Stopper(t, StopOp.StopRelock))
    {
      hide Reached;
      ghost var before := View();
      clients := clients - {t};
      assert EnabledStop(before, t, StopOp.StopRelock) && View() == StepStop(before, t, StopOp.StopRelock);
      hide StepStop, EnabledStop;
      Record(before, Stopper(t, StopOp.StopRelock));
    }

    method WorkerPop() returns (w: Tid)
      requires Valid() && worker == Popping && WORKER !in pushQ.notEmpty.asleep
      modifies this, pushQ
      ensures Stepped(Worker(WorkerOp.WorkerPop(w)))
    {
      ReachedFits(View(), history);
      hide Reached, QueueInv, StepWorker, EnabledWorker;
      ghost var before := View();
      w := PopChunk();
      Record(before, Worker(WorkerOp.WorkerPop(w)));
    }

    method PopChunk() returns (w: Tid)
      requires QueueInv(pushQ.View()) && worker == Popping && WORKER !in pushQ.notEmpty.asleep
      modifies this`worker, pushQ
      ensures EnabledWorker(old(View()), WorkerOp.WorkerPop(w))
      ensures View() == StepWorker(old(View()), WorkerOp.WorkerPop(w))
    {
      hide QueueInv;
      var outcome;
      outcome, w := pushQ.Pop(WORKER, false);
      if outcome.Item? {
        worker := Locking(outcome.value);
      } else if !outcome.PopBlocked? {
        worker := Done;
      }
    }

    method WorkerLock()
      requires Valid() && EnabledWorker(View(), WorkerOp.WorkerLock)
      modifies this
      ensures Stepped(Worker(WorkerOp.WorkerLock))
    {
      hide Reached;
      ghost var before := View();
      worker := Calling(worker.chunk, handle);
      assert EnabledWorker(before, WorkerOp.WorkerLock) && View() == StepWorker(before, WorkerOp.WorkerLock);
      hide StepWorker, EnabledWorker;
      Record(before, Worker(WorkerOp.WorkerLock));
    }

    method WorkerCall(reply: Reply)
      requires Valid() && EnabledWorker(View(), WorkerOp.WorkerCall(reply))
      modifies this
      ensures Stepped(Worker(WorkerOp.WorkerCall(reply)))
    {
      hide Reached;
      ghost var before := View();
      log := log + [StreamPush(worker.handle, worker.chunk, reply)];
      worker := if reply.Failed? then FailClosingPush(reply.error) else Storing(reply);
      assert EnabledWorker(before, WorkerOp.WorkerCall(reply));
      assert View() == StepWorker(before, WorkerOp.WorkerCall(reply));
      hide StepWorker, EnabledWorker;
      Record(before, Worker(WorkerOp.WorkerCall(reply)));
    }

    /** A result that does not fit, or comes after the close, is dropped. */
    method WorkerStore() returns (w: Tid)
      requires Valid() && worker.Storing?
      modifies this, resultQ
      ensures Stepped(Worker(WorkerOp.WorkerStore(w)))
    {
      ReachedFits(View(), history);
      hide Reached, QueueInv;
      ghost var before := View();
      w := Queue<Transcription>.Sleeper(resultQ.notEmpty);
      if worker.reply.Good? {
        var outcome;
        outcome, w := resultQ.TryPush(worker.reply.result);
      }
      worker := Popping;
      assert EnabledWorker(before, WorkerOp.WorkerStore(w)) && View() == StepWorker(before, WorkerOp.WorkerStore(w));
      hide StepWorker, EnabledWorker;
      Record(before, Worker(WorkerOp.WorkerStore(w)));
    }

    method WorkerClosePush()
      requires Valid() && worker.FailClosingPush?
      modifies this, pushQ
      ensures Stepped(Worker(WorkerOp.WorkerClosePush))
    {
      ReachedFits(View(), history);
      hide Reached, QueueInv;
      ghost var before := View();
      pushQ.Close();
      worker := FailClosingResult(worker.error);
      assert EnabledWorker(before, WorkerOp.WorkerClosePush);
      assert View() == StepWorker(before, WorkerOp.WorkerClosePush);
      hide StepWorker, EnabledWorker;
      Record(before, Worker(WorkerOp.WorkerClosePush));
    }

    method WorkerCloseResult()
      requires Valid() && worker.FailClosingResult?
      modifies this, resultQ
      ensures Stepped(Worker(WorkerOp.WorkerCloseResult))
    {
      ReachedFits(View(), history);
      hide Reached, QueueInv;
      ghost var before := View();
      resultQ.CloseWithError(worker.error);
      worker := Recording(worker.error);
      assert EnabledWorker(before, WorkerOp.WorkerCloseResult);
      assert View() == StepWorker(before, WorkerOp.WorkerCloseResult);
      hide StepWorker, EnabledWorker;
      Record(before, Worker(WorkerOp.WorkerCloseResult));
    }

    method WorkerRecord()
      requires Valid() && EnabledWorker(View(), WorkerOp.WorkerRecord)
      modifies this
      ensures Stepped(Worker(WorkerOp.WorkerRecord))
    {
      hide Reached;
      ghost var before := View();
      errorMessage := worker.error;
      worker := Done;
      assert EnabledWorker(before, WorkerOp.WorkerRecord) && View() == StepWorker(before, WorkerOp.WorkerRecord);
      hide StepWorker, EnabledWorker;
      Record(before, Worker(WorkerOp.WorkerRecord));
    }

    /** A sleeper stops waiting without being notified. */
    method WakeUp(op: WakeOp)
      requires Valid() && EnabledWake(View(), op)
      modifies this, pushQ, resultQ
      ensures Stepped(Wake(op))
    {
      hide Reached;
      ghost var before := View();
      match op {
        case WakeAppender(t) => pushQ.notFull := pushQ.notFull.Wake(t);
        case WakeWorker => pushQ.notEmpty := pushQ.notEmpty.Wake(WORKER);
        case WakeReader(t) => resultQ.notEmpty := resultQ.notEmpty.Wake(t);
      }
      assert EnabledWake(before, op) && View() == StepWake(before, op);
      hide StepWake, EnabledWake;
      Record(before, Wake(op));
    }

    // -------------------------------------------------------------------
    // Other threads
    // -------------------------------------------------------------------

    method OtherClient(t: Tid, op: ClientOp, ghost who: set<Tid>)
      requires Valid() && t !in who
      modifies this, pushQ, resultQ
      ensures Valid() && QueuesOwned() && Rely(old(View()), View(), who)
    {
      RelySame(View(), who);
      hide Inv, Reached, Rely, StepClient;
      ghost var before := View();
      ReachedInv(before, history);
      match op {
        case StartEnter(n) =>
          if t != WORKER && t !in clients && mutex == None {
            var ok := StartEnter(t, n);
            StepRely(before, Client(t, op), who);
          }
        case StartCall(reply) =>
          if t in clients && clients[t].StartCalling? {
            StartCall(t, reply);
            StepRely(before, Client(t, op), who);
          }
        case StartReturn =>
          if t in clients && clients[t].StartReturning? && mutex == None {
            var ok := StartReturn(t);
            StepRely(before, Client(t, op), who);
          }
        case AppendEnter(chunk) =>
          if t != WORKER && t !in clients && mutex == None {
            var ok := AppendEnter(t, chunk);
            StepRely(before, Client(t, op), who);
          }
        case AppendPush(_) =>
          if t in clients && clients[t].Appending? && t !in pushQ.notFull.asleep {
            var outcome, w := AppendPush(t);
            StepRely(before, Client(t, ClientOp.AppendPush(w)), who);
          }
        case ReadEnter =>
          if t != WORKER && t !in clients && mutex == None {
            var ok := ReadEnter(t);
            StepRely(before, Client(t, op), who);
          }
        case ReadPop(expired, _) =>
          if t in clients && clients[t] == Reading && t !in resultQ.notEmpty.asleep {
            var outcome, w := ReadPop(t, expired);
            StepRely(before, Client(t, ClientOp.ReadPop(expired, w)), who);
          }
        case ReadFinal =>
          if t in clients && clients[t] == ReadingFinal && mutex == None {
            var result := ReadFinal(t);
            StepRely(before, Client(t, op), who);
          }
      }
    }

    method OtherStopper(t: Tid, op: StopOp, ghost who: set<Tid>)
      requires Valid() && t !in who
      modifies this, pushQ, resultQ
      ensures Valid() && QueuesOwned() && Rely(old(View()), View(), who)
    {
      RelySame(View(), who);
      hide Inv, Reached, Rely, StepStop;
      ghost var before := View();
      ReachedInv(before, history);
      if op == StopOp.StopEnter {
        if t != WORKER && t !in clients && mutex == None {
          var stopping := StopEnter(t);
          StepRely(before, Stopper(t, op), who);
        }
      } else if t in clients && MayStop(clients[t]) {
        var taken := StopMoves(t);
        StepRely(before, Stopper(t, taken), who);
      }
    }

    /** The next step of Stop can be taken. */
    predicate MayStop(pc: Pc)
      reads this
    {
      pc.IsStop() && (pc.StopJoining? ==> worker == Done) && (pc == StopRelocking ==> mutex == None)
    }

    /** The next step of a Stop that has begun. */
    method StopMoves(t: Tid) returns (op: StopOp)
      requires Valid() && t in clients && MayStop(clients[t])
      modifies this, pushQ, resultQ
      ensures Stepped(Stopper(t, op))
    {
      hide Reached, StepStop;
      match clients[t]
      case StopClosingPush => StopClosePush(t); op := StopOp.StopClosePush;
      case StopClosingResult => StopCloseResult(t); op := StopOp.StopCloseResult;
      case StopUnlocking => StopUnlock(t); op := StopOp.StopUnlock;
      case StopJoining(_) => StopJoin(t); op := StopOp.StopJoin;
      case StopCalling(_) =>
        var reply: Reply := *;
        StopCall(t, reply);
        op := StopOp.StopCall(reply);
      case StopStoring(_) => StopStore(t); op := StopOp.StopStore;
      case StopFlagging => StopFlag(t); op := StopOp.StopFlag;
      case StopRelocking => StopRelock(t); op := StopOp.StopRelock;
    }

    /** The worker's next step can be taken. */
    predicate MayWork()
      reads this, pushQ
    {
      && worker != NotStarted && worker != Done
      && (worker == Popping ==> WORKER !in pushQ.notEmpty.asleep)
      && (worker.Locking? || worker.Recording? ==> mutex == None)
    }

    /** The next step of PushWorkerLoop. */
    method WorkerMoves() returns (op: WorkerOp)
      requires Valid() && MayWork()
      modifies this, pushQ, resultQ
      ensures Stepped(Worker(op))
    {
      hide Reached, StepWorker;
      match worker
      case Popping =>
        var w := WorkerPop();
        op := WorkerOp.WorkerPop(w);
      case Locking(_) => WorkerLock(); op := WorkerOp.WorkerLock;
      case Calling(_, _) =>
        var reply: Reply := *;
        WorkerCall(reply);
        op := WorkerOp.WorkerCall(reply);
      case Storing(_) =>
        var w := WorkerStore();
        op := WorkerOp.WorkerStore(w);
      case FailClosingPush(_) => WorkerClosePush(); op := WorkerOp.WorkerClosePush;
      case FailClosingResult(_) => WorkerCloseResult(); op := WorkerOp.WorkerCloseResult;
      case Recording(_) => WorkerRecord(); op := WorkerOp.WorkerRecord;
    }

    /** One step of another thread, if it can take it now. */
    method OtherStep(a: Action, who: set<Tid>)
      requires Valid() && !By(a, who)
      modifies this, pushQ, resultQ
      ensures Valid() && QueuesOwned() && Rely(old(View()), View(), who)
    {
      RelySame(View(), who);
      hide Inv, Reached, Rely, StepWorker, StepWake;
      ghost var before := View();
      ReachedInv(before, history);
      match a
      case Client(t, op) => OtherClient(t, op, who);
      case Stopper(t, op) => OtherStopper(t, op, who);
      case Worker(_) =>
        if MayWork() {
          var op := WorkerMoves();
          StepRely(before, Worker(op), who);
        }
      case Wake(op) =>
        var sleepers := match op
          case WakeAppender(t) => t in pushQ.notFull.asleep
          case WakeWorker => WORKER in pushQ.notEmpty.asleep
          case WakeReader(t) => t in resultQ.notEmpty.asleep;
        if sleepers {
          WakeUp(op);
          StepRely(before, a, who);
        }
    }

    /** While these threads are between two steps, the others take any number of theirs. */
    method Interfere(who: set<Tid>)
      requires Valid()
      modifies this, pushQ, resultQ
      ensures Valid() && QueuesOwned() && Rely(old(View()), View(), who)
    {
      RelySame(View(), who);
      hide Reached, Rely;
      var script: seq<Action> := *;
      for i := 0 to |script|
        invariant Valid() && QueuesOwned() && Rely(old(View()), View(), who)
      {
        if !By(script[i], who) {
          ghost var before := View();
          OtherStep(script[i], who);
          RelyTrans(old(View()), before, View(), who);
        }
      }
    }

    /** A thread inside a call between two of its steps. */
    method Pause(t: Tid)
      requires Valid() && t in clients
      modifies this, pushQ, resultQ
      ensures Valid() && QueuesOwned() && t in clients && clients[t] == old(clients)[t]
      ensures t !in old(pushQ.notFull.asleep) ==> t !in pushQ.notFull.asleep
      ensures t !in old(resultQ.notEmpty.asleep) ==> t !in resultQ.notEmpty.asleep
    {
      hide Reached, Rely;
      ghost var before := View();
      Interfere({t});
      StaysPut(before, View(), {t}, t);
      StaysAwake(before, View(), t);
    }

    // -------------------------------------------------------------------
    // PushWorkerLoop
    // -------------------------------------------------------------------

    /** The mutex is free, or belongs to this thread inside Stop. */
    predicate OwnedBy(h: Tid)
      reads this
    {
      mutex != None ==> mutex == Some(h) && h in clients && clients[h].HoldsMutex()
    }

    function OwnerRank(h: Tid): nat
      reads this
      requires OwnedBy(h)
    {
      if mutex == None then 0 else 1 + StopRank(clients[h])
    }

    /** The owner of the mutex takes a step, after the threads that are not among these. */
    method OwnerMoves(h: Tid, who: set<Tid>, ghost start: State)
      requires Valid() && mutex != None && OwnedBy(h) && h !in who
      requires Rely(start, View(), who)
      modifies this, pushQ, resultQ
      ensures Valid() && QueuesOwned() && Rely(start, View(), who)
      ensures OwnedBy(h) && OwnerRank(h) < old(OwnerRank(h))
    {
      hide Inv, Reached, Rely;
      ghost var before := View();
      Interfere(who + {h});
      StaysPut(before, View(), who + {h}, h);
      RelyFewer(before, View(), who + {h}, who);
      RelyTrans(start, before, View(), who);
      ghost var middle := View();
      ReachedInv(middle, history);
      var op := StopMoves(h);
      hide StepStop, EnabledStop, StopRank;
      StepRely(middle, Stopper(h, op), who);
      RelyTrans(start, middle, View(), who);
      OwnerGoesOn(middle, h, op);
    }

    /** Locking the session mutex: its owner, if any, is a Stop that goes on until it unlocks. */
    method AwaitMutex(who: set<Tid>)
      requires Valid() && (mutex.Some? ==> mutex.value !in who)
      modifies this, pushQ, resultQ
      ensures Valid() && QueuesOwned() && Rely(old(View()), View(), who)
      ensures mutex == None
    {
      ghost var start := View();
      RelySame(start, who);
      ReachedInv(start, history);
      OwnerFacts(start);
      hide Inv, Reached, Rely, OwnerRank;
      if mutex == None {
        return;
      }
      var h := mutex.value;
      while mutex != None
        invariant Valid() && QueuesOwned() && Rely(start, View(), who)
        invariant OwnedBy(h)
        decreases OwnerRank(h)
      {
        OwnerMoves(h, who, start);
      }
    }

    /** Locking the mutex at the beginning of a call; while another thread owns it, the session is stopped. */
    method Lock(t: Tid)
      requires Valid() && View().Idle(t)
      modifies this, pushQ, resultQ
      ensures Valid() && QueuesOwned() && t !in clients && mutex == None && phase == old(phase)
      ensures old(mutex) == None ==> View() == old(View())
      ensures old(mutex) != None ==> phase == Stopped
    {
      if mutex != None {
        ghost var before := View();
        ReachedInv(before, history);
        OwnerFacts(before);
        StopperFacts(before, mutex.value);
        hide Inv, Reached, Rely;
        AwaitMutex({t});
        LockedUndisturbed(before, View(), t);
      }
    }

    /** The worker lets the others go on, and locks the mutex if that is what comes next. */
    method WorkerWaits()
      requires Valid() && worker != NotStarted && worker != Done
      modifies this, pushQ, resultQ
      ensures Valid() && QueuesOwned() && Rely(old(View()), View(), {WORKER}) && worker == old(worker)
      ensures old(pushQ.closed) ==> MayWork()
    {
      hide Inv, Reached, Rely;
      ghost var before := View();
      WorkerPauses();
      if worker.Locking? || worker.Recording? {
        ghost var middle := View();
        WorkerLocks();
        RelyTrans(before, middle, View(), {WORKER});
      }
    }

    method WorkerPauses()
      requires Valid() && worker != NotStarted && worker != Done
      modifies this, pushQ, resultQ
      ensures Valid() && QueuesOwned() && Rely(old(View()), View(), {WORKER}) && worker == old(worker)
      ensures old(pushQ.closed) ==> WORKER !in pushQ.notEmpty.asleep
    {
      ghost var before := View();
      ReachedInv(before, history);
      hide Inv, Reached, Rely, FailureShown, JoinersWait;
      Interfere({WORKER});
      WorkerUndisturbed(before, View());
      ReachedInv(View(), history);
      QueuesFit(View());
    }

    method WorkerLocks()
      requires Valid() && worker != NotStarted && worker != Done
      modifies this, pushQ, resultQ
      ensures Valid() && QueuesOwned() && Rely(old(View()), View(), {WORKER})
      ensures worker == old(worker) && mutex == None
    {
      ghost var before := View();
      ReachedInv(before, history);
      OwnerFacts(before);
      hide Inv, Reached, Rely, FailureShown, JoinersWait;
      AwaitMutex({WORKER});
      WorkerUndisturbed(before, View());
    }

    /**
      The worker, from wherever it is, while all other threads go on.  On an open queue it
      takes any number of turns; once somebody has closed the queue it comes to its end.
      Then, without a failed push, everything accepted has been pushed, and after a failed
      one nothing more is: its error closes the result queue and is what GetErrorMessage
      returns.
    */
    method PushWorkerLoop(patience: nat)
      requires Valid() && worker != NotStarted
      modifies this, pushQ, resultQ
      ensures Valid() && QueuesOwned() && (worker == Done || !pushQ.closed) && (old(pushQ.closed) ==> worker == Done)
      ensures Rely(old(View()), View(), {}) && JoinersWait(old(clients), clients)
      ensures worker == Done && NoPushFailed(log) ==> Pushes(log) == Accepted(Init(), history)
      ensures worker == Done && old(NoPushFailed(log)) && !NoPushFailed(log) ==>
                LastPushFailed(log, errorMessage) && resultQ.hasError
    {
      ghost var start := View();
      RelySame(start, {});
      hide Inv, Reached, NoPushFailed, LastPushFailed, Rely;
      var left := patience;
      while worker != Done && (pushQ.closed || left > 0)
        invariant Valid() && QueuesOwned() && worker != NotStarted && (start.pushQ.closed ==> pushQ.closed)
        invariant Rely(start, View(), {}) && JoinersWait(start.clients, clients)
        invariant FailureShown(start) ==> FailureShown(View())
        decreases left, WorkerRank(worker, |pushQ.items|)
      {
        if !pushQ.closed {
          left := left - 1;
        }
        WorkerTurn(start);
      }
      ReachedInv(View(), history);
      HistoryAccepts(View(), history);
      if worker == Done && NoPushFailed(log) {
        DoneHasPushed(View());
      }
    }

    method WorkerTurn(ghost start: State)
      requires Valid() && worker != NotStarted && worker != Done
      requires Rely(start, View(), {}) && JoinersWait(start.clients, clients)
      modifies this, pushQ, resultQ
      ensures Valid() && QueuesOwned() && worker != NotStarted
      ensures Rely(start, View(), {}) && JoinersWait(start.clients, clients)
      ensures old(FailureShown(View())) ==> FailureShown(View())
      ensures old(pushQ.closed) ==>
                pushQ.closed && WorkerRank(worker, |pushQ.items|) < old(WorkerRank(worker, |pushQ.items|))
    {
      ghost var before := View();
      ReachedInv(before, history);
      hide Inv, Reached, Rely, FailureShown, JoinersWait, WorkerRank;
      WorkerWaits();
      WorkerUndisturbed(before, View());
      RelyFewer(before, View(), {WORKER}, {});
      RelyTrans(start, before, View(), {});
      JoinersWaitOn(start.clients, before.clients, clients);
      if MayWork() {
        WorkerTakesStep(start);
      }
    }

    method WorkerTakesStep(ghost start: State)
      requires Valid() && MayWork() && Rely(start, View(), {})
      modifies this, pushQ, resultQ
      ensures Valid() && QueuesOwned() && worker != NotStarted && Rely(start, View(), {}) && clients == old(clients)
      ensures old(FailureShown(View())) ==> FailureShown(View())
      ensures old(pushQ.closed) ==>
                pushQ.closed && WorkerRank(worker, |pushQ.items|) < old(WorkerRank(worker, |pushQ.items|))
    {
      ghost var before := View();
      ReachedInv(before, history);
      QueuesFit(before);
      hide Inv, Reached, Rely, FailureShown, QueueInv, StepWorker, EnabledWorker, WorkerRank;
      var op := WorkerMoves();
      WorkerGoesOn(before, op);
      RelyTrans(start, before, View(), {});
    }

    // -------------------------------------------------------------------
    // Stop
    // -------------------------------------------------------------------

    /** The stopping thread between two of its steps. */
    method StopPauses(t: Tid)
      requires Valid() && Stopping(View(), t)
      modifies this, pushQ, resultQ
      ensures Valid() && QueuesOwned()
      ensures t in clients && clients[t] == old(clients)[t] && phase == Stopped && handle == old(handle)
      ensures old(worker) == Done ==> worker == Done && log == old(log) && finalResult == old(finalResult)
      ensures old(worker) == Done ==>
                resultQ.hasError == old(resultQ.hasError) && resultQ.errorMessage == old(resultQ.errorMessage)
      ensures old(hasFinal || !NoFinal(handed)) ==> hasFinal || !NoFinal(handed)
      ensures !clients[t].HoldsMutex() ==> mutex == None
    {
      ghost var before := View();
      ReachedInv(before, history);
      hide Inv, Reached, Rely, NoFinal;
      Interfere({t});
      ReachedInv(View(), history);
      StopUndisturbed(before, View(), t);
    }

    /** Up to the join: the session is stopped, and both queues are closed. */
    method StopCloses(t: Tid)
      requires Valid() && View().Idle(t) && mutex == None && phase == Started
      modifies this, pushQ, resultQ
      ensures Valid() && QueuesOwned()
      ensures t in clients && clients[t] == StopJoining(handle) && handle == old(handle) && pushQ.closed
    {
      hide Inv, Reached, NoFinal;
      StopClosesPush(t);
      StopClosesResult(t);
      StopUnlocks(t);
      ReachedInv(View(), history);
      StopperFacts(View(), t);
    }

    method StopClosesPush(t: Tid)
      requires Valid() && View().Idle(t) && mutex == None && phase == Started
      modifies this, pushQ, resultQ
      ensures Valid() && QueuesOwned()
      ensures t in clients && clients[t] == StopClosingResult && handle == old(handle)
    {
      hide Inv, Reached, NoFinal;
      var stopping := StopEnter(t);
      StopPauses(t);
      StopClosePush(t);
    }

    method StopClosesResult(t: Tid)
      requires Valid() && t in clients && clients[t] == StopClosingResult
      modifies this, pushQ, resultQ
      ensures Valid() && QueuesOwned()
      ensures t in clients && clients[t] == StopUnlocking && handle == old(handle)
    {
      hide Inv, Reached, NoFinal;
      StopPauses(t);
      StopCloseResult(t);
    }

    method StopUnlocks(t: Tid)
      requires Valid() && t in clients && clients[t] == StopUnlocking
      modifies this, pushQ, resultQ
      ensures Valid() && QueuesOwned()
      ensures t in clients && clients[t] == StopJoining(handle) && handle == old(handle)
    {
      hide Inv, Reached, NoFinal;
      StopPauses(t);
      StopUnlock(t);
    }

    /** Behind the join: the core is told. */
    method StopTells(t: Tid, reply: Reply)
      requires Valid() && t in clients && clients[t].StopJoining? && worker == Done
      modifies this, pushQ, resultQ
      ensures Valid() && QueuesOwned()
      ensures t in clients && clients[t] == StopStoring(reply) && worker == Done
      ensures handle == old(handle) && EndsWith(log, StreamStop(handle, reply))
    {
      hide Inv, Reached, NoFinal, EndsWith;
      StopJoins(t);
      StopCalls(t, reply);
    }

    method StopJoins(t: Tid)
      requires Valid() && t in clients && clients[t].StopJoining? && worker == Done
      modifies this, pushQ, resultQ
      ensures Valid() && QueuesOwned() && t in clients && clients[t].StopCalling?
      ensures worker == Done && handle == old(handle)
    {
      hide Inv, Reached, NoFinal;
      StopPauses(t);
      StopJoin(t);
    }

    method StopCalls(t: Tid, reply: Reply)
      requires Valid() && t in clients && clients[t].StopCalling? && worker == Done
      modifies this, pushQ, resultQ
      ensures Valid() && QueuesOwned() && t in clients && clients[t] == StopStoring(reply)
      ensures worker == Done && handle == old(handle) && EndsWith(log, StreamStop(handle, reply))
    {
      hide Inv, Reached, NoFinal;
      StopPauses(t);
      ReachedInv(View(), history);
      StopperFacts(View(), t);
      StopCall(t, reply);
    }

    /** What the core has answered is stored. */
    method StopKeepsReply(t: Tid, ghost reply: Reply)
      requires Valid() && t in clients && clients[t] == StopStoring(reply) && worker == Done
      modifies this, pushQ, resultQ
      ensures Valid() && QueuesOwned() && t in clients && (clients[t] == StopFlagging || clients[t] == StopRelocking)
      ensures worker == Done && handle == old(handle) && log == old(log)
      ensures reply.Good? ==> finalResult == Some(reply.result) && clients[t] == StopFlagging
      ensures reply.Failed? ==>
                resultQ.hasError && resultQ.errorMessage == "audio_stream_stop failed: " + reply.error
    {
      hide Inv, Reached, NoFinal;
      StopPauses(t);
      StopStore(t);
    }

    /** The flag beside the final result. */
    method StopFlags(t: Tid)
      requires Valid() && t in clients && clients[t] == StopFlagging && worker == Done
      modifies this, pushQ, resultQ
      ensures Valid() && QueuesOwned() && t in clients && clients[t] == StopRelocking && worker == Done && hasFinal
      ensures handle == old(handle) && log == old(log) && finalResult == old(finalResult)
      ensures resultQ.hasError == old(resultQ.hasError) && resultQ.errorMessage == old(resultQ.errorMessage)
    {
      hide Inv, Reached, NoFinal;
      StopPauses(t);
      StopFlag(t);
    }

    /** The lock that Stop gives back. */
    method StopRelocks(t: Tid)
      requires Valid() && t in clients && clients[t] == StopRelocking && worker == Done
      modifies this, pushQ, resultQ
      ensures Valid() && QueuesOwned()
      ensures t !in clients && worker == Done && phase == Stopped && pushQ.closed && resultQ.closed
      ensures handle == old(handle) && log == old(log) && finalResult == old(finalResult)
      ensures resultQ.hasError == old(resultQ.hasError) && resultQ.errorMessage == old(resultQ.errorMessage)
      ensures old(hasFinal) ==> hasFinal || !NoFinal(handed)
    {
      hide Inv, Reached, NoFinal;
      StopPauses(t);
      ReachedInv(View(), history);
      StopperFacts(View(), t);
      StopRelock(t);
    }

    /** All that Stop does behind the join. */
    method StopReports(t: Tid, reply: Reply)
      requires Valid() && t in clients && clients[t].StopJoining? && worker == Done
      modifies this, pushQ, resultQ
      ensures Valid() && QueuesOwned() && t !in clients
      ensures worker == Done && phase == Stopped && pushQ.closed && resultQ.closed
      ensures handle == old(handle) && EndsWith(log, StreamStop(handle, reply))
      ensures reply.Good? ==> finalResult == Some(reply.result) && (hasFinal || !NoFinal(handed))
      ensures reply.Failed? ==>
                resultQ.hasError && resultQ.errorMessage == "audio_stream_stop failed: " + reply.error
    {
      hide Inv, Reached, NoFinal, EndsWith;
      StopTells(t, reply);
      StopKeepsReply(t, reply);
      if clients[t] == StopFlagging {
        StopFlags(t);
      }
      StopRelocks(t);
    }

    /**
      Stop, with the core's answer, while all other threads go on.  It comes back; a
      session that was started is then stopped, everything accepted has been pushed
      unless a push failed, the stop was the last command, and its result waits for a
      reader or has been read.
    */
    method Stop(t: Tid, reply: Reply)
      requires Valid() && View().Idle(t)
      modifies this, pushQ, resultQ
      ensures Valid() && QueuesOwned() && t !in clients
      ensures old(phase) != Started ==> phase == old(phase) && (old(mutex) == None ==> View() == old(View()))
      ensures old(phase) == Started ==>
                && phase == Stopped && worker == Done && pushQ.closed && resultQ.closed
                && handle == old(handle) && EndsWith(log, StreamStop(handle, reply))
                && Pushes(log) <= Accepted(Init(), history)
                && (NoPushFailed(log) ==> Pushes(log) == Accepted(Init(), history))
                && finalResult == (if reply.Good? then Some(reply.result) else None)
                && (reply.Good? ==> hasFinal || !NoFinal(handed))
                && (reply.Failed? ==>
                      resultQ.hasError && resultQ.errorMessage == "audio_stream_stop failed: " + reply.error)
    {
      hide Inv, Reached, NoFinal, NoPushFailed, Rely;
      Lock(t);
      if phase != Started {
        var stopping := StopEnter(t);
        return;
      }
      StopCloses(t);
      ReachedInv(View(), history);
      QueuesFit(View());
      StopperFacts(View(), t);
      ghost var joining := View();
      PushWorkerLoop(0);
      SessionStays(joining, View());
      StopReports(t, reply);
      ReachedInv(View(), history);
      HistoryAccepts(View(), history);
      FinalIsTheReply(View(), reply);
      StopIsLogged(log, handle, reply);
    }

    // -------------------------------------------------------------------
    // Start, Append, TryGetNext
    // -------------------------------------------------------------------

    /** Start, with the core's answer, while all other threads go on; a failed start may be tried again. */
    method Start(t: Tid, requestedCapacity: int, reply: StartReply) returns (ok: bool)
      requires Valid() && View().Idle(t)
      modifies this, pushQ, resultQ
      ensures Valid() && QueuesOwned() && t !in clients
      ensures ok <==> old(phase) == Created && requestedCapacity > 0 && reply.Handle? && reply.handle != ""
      ensures ok ==> phase == Started && handle == reply.handle && worker == Popping && StreamStart(reply) in log
      ensures ok ==> pushQ.View() == NewQueue(requestedCapacity) && resultQ.View() == NewQueue(requestedCapacity)
      ensures ok ==> Accepted(Init(), history) == [] && Stored(Init(), history) == []
      ensures !ok && old(phase) == Created ==> phase == Created
      ensures old(phase) != Created ==> phase == old(phase) && (old(mutex) == None ==> View() == old(View()))
    {
      hide Inv, Reached, Rely;
      Lock(t);
      ok := StartEnter(t, requestedCapacity);
      if ok {
        StartAsks(t, reply);
        ok := StartGetsReply(t);
      }
    }

    /** The core is asked, while the phase keeps everybody else out. */
    method StartAsks(t: Tid, reply: StartReply)
      requires Valid() && t in clients && clients[t].StartCalling?
      modifies this, pushQ, resultQ
      ensures Valid() && QueuesOwned()
      ensures t in clients && clients[t] == StartReturning(old(clients)[t].capacity, reply)
    {
      hide Inv, Reached;
      Pause(t);
      StartCall(t, reply);
    }

    method StartGetsReply(t: Tid) returns (ok: bool)
      requires Valid() && t in clients && clients[t].StartReturning?
      modifies this, pushQ, resultQ
      ensures Valid() && QueuesOwned() && t !in clients
      ensures ok <==> old(clients)[t].started.Handle? && old(clients)[t].started.handle != ""
      ensures phase == if ok then Started else Created
      ensures ok ==> Handle(handle) == old(clients)[t].started && StreamStart(Handle(handle)) in log
      ensures ok ==> worker == Popping
      ensures ok ==> pushQ.View() == NewQueue(old(clients)[t].capacity)
      ensures ok ==> resultQ.View() == NewQueue(old(clients)[t].capacity)
      ensures ok ==> Accepted(Init(), history) == [] && Stored(Init(), history) == []
    {
      hide Inv, Reached;
      Pause(t);
      ReachedInv(View(), history);
      StarterFacts(View(), t);
      ok := StartReturn(t);
      ReachedInv(View(), history);
      HistoryAccepts(View(), history);
      if ok {
        StartIsLogged(View());
      }
    }

    /** Append's look at the phase, and what happens before it gets to the queue. */
    method AppendBegins(t: Tid, chunk: Chunk) returns (ok: bool)
      requires Valid() && View().Idle(t) && mutex == None
      modifies this, pushQ, resultQ
      ensures Valid() && QueuesOwned() && ok == (old(phase) == Started)
      ensures !ok ==> View() == old(View())
      ensures ok ==> t in clients && clients[t] == Appending(chunk) && t !in pushQ.notFull.asleep
    {
      ReachedInv(View(), history);
      IdleIsAwake(View(), t);
      hide Inv, Reached;
      ok := AppendEnter(t, chunk);
      if ok {
        Pause(t);
      }
    }

    /** Append up to the point where it comes back or falls asleep in front of a full queue. */
    method Append(t: Tid, chunk: Chunk) returns (outcome: PushOutcome)
      requires Valid() && View().Idle(t)
      modifies this, pushQ, resultQ
      ensures Valid() && QueuesOwned()
      ensures old(phase) != Started ==> outcome == Rejected && (old(mutex) == None ==> View() == old(View()))
      ensures outcome == Rejected ==> t !in clients && (old(phase) != Started || pushQ.closed)
      ensures outcome == Enqueued ==> t !in clients && EndsWithChunk(Accepted(Init(), history), chunk) && !pushQ.closed
      ensures outcome == PushBlocked ==>
                t in pushQ.notFull.asleep && |pushQ.items| == pushQ.capacity && !pushQ.closed
    {
      hide Inv, Reached, StepClient, PushPass, QueueInv;
      Lock(t);
      var ok := AppendBegins(t, chunk);
      if !ok {
        return Rejected;
      }
      ghost var before := View();
      ReachedFits(before, history);
      var w;
      outcome, w := AppendPush(t);
      AppendEffects(before, t, w);
      HistoryAccepts(View(), history);
    }

    /** TryGetNext's look at the phase, and what happens before it gets to the queue. */
    method ReadBegins(t: Tid) returns (ok: bool)
      requires Valid() && View().Idle(t) && mutex == None
      modifies this, pushQ, resultQ
      ensures Valid() && QueuesOwned() && ok == Up(old(phase))
      ensures !ok ==> View() == old(View())
      ensures ok ==> t in clients && clients[t] == Reading && t !in resultQ.notEmpty.asleep
    {
      ReachedInv(View(), history);
      IdleIsAwake(View(), t);
      ReadEntered(View(), t);
      hide Inv, Reached, QueueInv, StepClient;
      ok := ReadEnter(t);
      if ok {
        Pause(t);
      }
    }

    /** TryGetNext up to the point where it comes back or falls asleep in front of an empty queue. */
    method TryGetNext(t: Tid, expired: bool) returns (next: Next)
      requires Valid() && View().Idle(t)
      modifies this, pushQ, resultQ
      ensures Valid() && QueuesOwned() && (next != Waiting ==> t !in clients)
      ensures next == NotReady <==> !Up(old(phase))
      ensures next == NotReady ==> old(mutex) == None && View() == old(View())
      ensures next.Result? ==> EndsWithResult(handed, next.result)
      ensures next.Result? ==> HandedOut(View(), history, next.result)
      ensures next == Over ==> resultQ.closed && resultQ.items == [] && !hasFinal
      ensures next == Broken ==> resultQ.hasError && resultQ.items == []
      ensures next == TimedOut ==> expired && resultQ.items == [] && !resultQ.closed
      ensures next == Waiting ==> t in resultQ.notEmpty.asleep && resultQ.items == [] && !resultQ.closed
    {
      hide Inv, Reached, StepClient, PopPass, QueueInv, HandedOut;
      Lock(t);
      var ok := ReadBegins(t);
      if !ok {
        return NotReady;
      }
      ghost var before := View();
      ReachedFits(before, history);
      var outcome, w := ReadPop(t, expired);
      ReadEffects(before, t, expired, w);
      ReachedHandedOut(View(), history);
      match outcome
      case Item(value) => next := Next.Result(value);
      case Timeout => next := TimedOut;
      case Error => next := Broken;
      case PopBlocked => next := Waiting;
      case Closed => next := ReadAfterClose(t);
    }

    /** Behind a drained queue: the final result, if it is there and nobody has read it. */
    method ReadAfterClose(t: Tid) returns (next: Next)
      requires Valid() && t in clients && clients[t] == ReadingFinal
      modifies this, pushQ, resultQ
      ensures Valid() && QueuesOwned() && t !in clients && (next.Result? || next == Over)
      ensures resultQ.closed && resultQ.items == [] && !hasFinal
      ensures next.Result? ==> EndsWithResult(handed, next.result) && HandedOut(View(), history, next.result)
    {
      hide Inv, Reached, Rely;
      Pause(t);
      ReachedInv(View(), history);
      OwnerFacts(View());
      ghost var before := View();
      AwaitMutex({t});
      StaysPut(before, View(), {t}, t);
      ReachedInv(View(), history);
      ReaderFacts(View(), t);
      var result := ReadFinal(t);
      ReachedHandedOut(View(), history);
      next := match result case Some(r) => Next.Result(r) case None => Over;
    }
  }
}
