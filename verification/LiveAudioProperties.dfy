/**
  What callers of the live audio session can rely on, in every run of any number
  of threads: delivery of the audio, termination of Stop, delivery of the results.
*/
module LiveAudioProperties {
  import opened ThreadSafeQueue
  import opened LiveAudioSession
  import opened LiveAudioInvariant

  // ---------------------------------------------------------------------
  // Delivery of the chunks
  // ---------------------------------------------------------------------

  /** The chunk that one step makes Append accept, if any. */
  ghost function AcceptedBy(s: State, a: Action): seq<Chunk>
    requires Enabled(s, a)
  {
    match a
    case Client(t, AppendPush(w)) =>
      if !s.pushQ.closed && |s.pushQ.items| < s.pushQ.capacity then [s.clients[t].chunk] else []
    case _ => []
  }

  /** The chunks for which Append returned without an error, in order. */
  ghost function Accepted(s: State, run: seq<Action>): seq<Chunk>
    requires Legal(s, run)
    decreases |run|
  {
    if run == [] then [] else AcceptedBy(s, run[0]) + Accepted(Step(s, run[0]), run[1..])
  }

  lemma {:induction false} ClientAccepts(s: State, t: Tid, op: ClientOp)
    requires EnabledClient(s, t, op)
    requires op.StartReturn? ==> s.pushQ.pushed == []
    ensures StepClient(s, t, op).pushQ.pushed == s.pushQ.pushed + AcceptedBy(s, Client(t, op))
  {
  }

  lemma {:induction false} OnlyAppendAccepts(s: State, a: Action)
    requires ThreadsInv(s.phase, s.mutex, s.clients) && DeliveryInv(Up(s.phase), s.worker, s.pushQ, s.log)
    requires Enabled(s, a)
    ensures Step(s, a).pushQ.pushed == s.pushQ.pushed + AcceptedBy(s, a)
  {
    match a
    case Client(t, op) => ClientAccepts(s, t, op);
    case _ =>
  }

  lemma StepAccepts(s: State, a: Action)
    requires Inv(s) && Enabled(s, a)
    ensures Step(s, a).pushQ.pushed == s.pushQ.pushed + AcceptedBy(s, a)
  {
    hide Step, AcceptedBy;
    OnlyAppendAccepts(s, a);
  }

  lemma {:induction false} AcceptedIsPushed(s: State, run: seq<Action>)
    requires Inv(s) && Legal(s, run)
    ensures Run(s, run).pushQ.pushed == s.pushQ.pushed + Accepted(s, run)
    decreases |run|
  {
    hide Inv, Enabled, Step, AcceptedBy;
    if run != [] {
      StepAccepts(s, run[0]);
      StepKeepsInv(s, run[0]);
      AcceptedIsPushed(Step(s, run[0]), run[1..]);
    }
  }

  lemma DeliveredSoFar(s: State)
    requires Inv(s)
    ensures Pushes(s.log) <= s.pushQ.pushed && StopIsLast(s.log)
    ensures !NoStop(s.log) && NoPushFailed(s.log) ==> Pushes(s.log) == s.pushQ.pushed
  {
    assert s.pushQ.pushed == Pushes(s.log) + (s.worker.InHand() + s.pushQ.items);
  }

  lemma InitInv()
    ensures Inv(Init())
  {
  }

  /** The core gets the accepted chunks in order, each at most once; the stop
      command comes at most once and after every push; and if no push failed,
      nothing accepted is missing when the core is told to stop. */
  lemma Delivery(run: seq<Action>)
    requires Legal(Init(), run)
    ensures var s := Run(Init(), run);
            && Pushes(s.log) <= Accepted(Init(), run)
            && StopIsLast(s.log)
            && (!NoStop(s.log) && NoPushFailed(s.log) ==> Pushes(s.log) == Accepted(Init(), run))
  {
    InitInv();
    RunKeepsInv(Init(), run);
    hide Inv;
    AcceptedIsPushed(Init(), run);
    DeliveredSoFar(Run(Init(), run));
  }

  /** Every push and the stop carry one and the same handle, the one that the core
      gave out when it started the stream. */
  lemma Handles(run: seq<Action>)
    requires Legal(Init(), run)
    ensures var s := Run(Init(), run);
            forall i :: 0 <= i < |s.log| && !s.log[i].StreamStart? ==>
              s.log[i].handle == s.handle && s.handle != "" && StreamStart(Handle(s.handle)) in s.log
  {
    InitInv();
    RunKeepsInv(Init(), run);
  }

  // ---------------------------------------------------------------------
  // Stop comes to an end
  // ---------------------------------------------------------------------

  /** Steps that the worker can still take once the push queue is closed. */
  function WorkerRank(worker: WorkerPc, queued: nat): nat {
    match worker
    case NotStarted => 0
    case Done => 0
    case Recording(_) => 1
    case FailClosingResult(_) => 2
    case FailClosingPush(_) => 3
    case Popping => 5 * queued + 1
    case Storing(_) => 5 * queued + 2
    case Calling(_, _) => 5 * queued + 4
    case Locking(_) => 5 * queued + 5
  }

  function StopRank(pc: Pc): nat {
    match pc
    case StopClosingPush => 8
    case StopClosingResult => 7
    case StopUnlocking => 6
    case StopJoining(_) => 5
    case StopCalling(_) => 4
    case StopStoring(_) => 3
    case StopFlagging => 2
    case StopRelocking => 1
    case _ => 0
  }

  function Remaining(s: State, t: Tid): nat {
    WorkerRank(s.worker, |s.pushQ.items|) + (if t in s.clients then StopRank(s.clients[t]) else 0)
  }

  ghost predicate Stopping(s: State, t: Tid) { t in s.clients && s.clients[t].IsStop() }

  ghost function AnySleeper(c: CondVar): (w: Tid)
    ensures c.MayWake(w)
  {
    if c.asleep == {} then 0 else var w :| w in c.asleep; w
  }

  ghost function NextWorkerOp(s: State): WorkerOp {
    match s.worker
    case Locking(_) => WorkerLock
    case Calling(_, _) => WorkerCall(NoData)
    case Storing(_) => WorkerStore(AnySleeper(s.resultQ.notEmpty))
    case FailClosingPush(_) => WorkerClosePush
    case FailClosingResult(_) => WorkerCloseResult
    case Recording(_) => WorkerRecord
    case _ => WorkerPop(AnySleeper(s.pushQ.notFull))
  }

  /** A Stop that has been entered always has a next step: its own, or while it
      joins the worker's, which then never waits for anything. */
  lemma StopCanProceed(s: State, t: Tid) returns (a: Action)
    requires Inv(s) && Stopping(s, t)
    ensures Enabled(s, a)
    ensures a.Worker? || (a.Stopper? && a.t == t)
    ensures a.Worker? ==> s.clients[t].StopJoining? && !s.worker.Done?
  {
    match s.clients[t]
    case StopClosingPush => a := Stopper(t, StopClosePush);
    case StopClosingResult => a := Stopper(t, StopCloseResult);
    case StopUnlocking => a := Stopper(t, StopUnlock);
    case StopCalling(_) => a := Stopper(t, StopCall(NoData));
    case StopStoring(_) => a := Stopper(t, StopStore);
    case StopFlagging => a := Stopper(t, StopFlag);
    case StopRelocking => a := Stopper(t, StopRelock);
    case StopJoining(_) =>
      if s.worker.Done? {
        a := Stopper(t, StopJoin);
      } else {
        assert Fits(s.clients[t], FactsOf(s));
        a := Worker(NextWorkerOp(s));
      }
  }

  lemma {:induction false} WorkerStepDecreases(s: State, op: WorkerOp)
    requires EnabledWorker(s, op) && s.pushQ.closed
    ensures var r := StepWorker(s, op); WorkerRank(r.worker, |r.pushQ.items|) < WorkerRank(s.worker, |s.pushQ.items|)
  {
  }

  lemma {:induction false} StopStepDecreases(s: State, t: Tid, op: StopOp)
    requires EnabledStop(s, t, op) && Stopping(s, t)
    ensures Remaining(StepStop(s, t, op), t) < Remaining(s, t)
  {
  }

  lemma {:induction false} ClientIsNeutral(s: State, t: Tid, u: Tid, op: ClientOp)
    requires EnabledClient(s, u, op) && s.pushQ.closed && Stopping(s, t)
    requires op.StartReturn? ==> s.phase == Starting
    requires s.phase == Stopped
    ensures StepClient(s, u, op).pushQ.closed && Remaining(StepClient(s, u, op), t) == Remaining(s, t)
  {
  }

  lemma {:induction false} WakeIsNeutral(s: State, t: Tid, op: WakeOp)
    requires EnabledWake(s, op) && s.pushQ.closed
    ensures StepWake(s, op).pushQ.closed && Remaining(StepWake(s, op), t) == Remaining(s, t)
  {
  }

  /** Once the push queue is closed, every step of the worker or of the stopping
      thread brings the end of Stop nearer, and no step of another thread moves
      it away. */
  lemma {:induction false} StepComesNearer(s: State, t: Tid, a: Action)
    requires ThreadsInv(s.phase, s.mutex, s.clients)
    requires Enabled(s, a) && s.pushQ.closed && Stopping(s, t)
    ensures Step(s, a).pushQ.closed
    ensures a.Worker? || (a.Stopper? && a.t == t) ==> Remaining(Step(s, a), t) < Remaining(s, t)
    ensures Remaining(Step(s, a), t) <= Remaining(s, t)
  {
    match a
    case Worker(op) => WorkerStepDecreases(s, op);
    case Stopper(u, op) => if u == t { StopStepDecreases(s, t, op); }
    case Client(u, op) => ClientIsNeutral(s, t, u, op);
    case Wake(op) => WakeIsNeutral(s, t, op);
  }

  /** The steps of the worker and of thread t in a run throughout which t stays
      inside the same call of Stop. */
  ghost function OwnSteps(s: State, t: Tid, run: seq<Action>): nat
    requires Legal(s, run)
    decreases |run|
  {
    if run == [] then 0
    else
      var own := run[0].Worker? || (run[0].Stopper? && run[0].t == t);
      (if own then 1 else 0) + OwnSteps(Step(s, run[0]), t, run[1..])
  }

  ghost predicate StaysStopping(s: State, t: Tid, run: seq<Action>)
    requires Legal(s, run)
    decreases |run|
  {
    Stopping(s, t) && (run == [] || StaysStopping(Step(s, run[0]), t, run[1..]))
  }

  lemma StepFromInv(s: State, t: Tid, a: Action)
    requires Inv(s) && Enabled(s, a) && s.pushQ.closed && Stopping(s, t)
    ensures Inv(Step(s, a)) && Step(s, a).pushQ.closed
    ensures a.Worker? || (a.Stopper? && a.t == t) ==> Remaining(Step(s, a), t) < Remaining(s, t)
    ensures Remaining(Step(s, a), t) <= Remaining(s, t)
  {
    hide Step, Remaining;
    StepComesNearer(s, t, a);
    assert Inv(Step(s, a)) by {
      hide Inv;
      StepKeepsInv(s, a);
    }
  }

  lemma RemainingIsBounded(s: State, t: Tid)
    ensures Remaining(s, t) <= 5 * |s.pushQ.items| + 13
  {
  }

  /** From the moment the push queue is closed, Stop returns within a number of
      steps of its own and the worker's bounded by the chunks still queued, no
      matter what any other thread does in between. */
  lemma {:induction false} StopReturns(s: State, t: Tid, run: seq<Action>)
    requires Inv(s) && s.pushQ.closed && Legal(s, run) && StaysStopping(s, t, run)
    ensures OwnSteps(s, t, run) + Remaining(Run(s, run), t) <= Remaining(s, t)
    ensures Remaining(s, t) <= 5 * |s.pushQ.items| + 13
    decreases |run|
  {
    RemainingIsBounded(s, t);
    hide Inv, Enabled, Step, Remaining, Stopping;
    if run != [] {
      StepFromInv(s, t, run[0]);
      StopReturns(Step(s, run[0]), t, run[1..]);
    }
  }

  /** Behind the closing steps of Stop nobody is asleep on either queue, so every
      Append and TryGetNext still inside one of them can go on. */
  lemma ClosingReleasesEverybody(s: State, t: Tid)
    requires Inv(s) && Stopping(s, t) && s.clients[t].PastClosing()
    ensures s.pushQ.closed && s.resultQ.closed
    ensures s.pushQ.notFull.asleep == {} && s.pushQ.notEmpty.asleep == {} && s.resultQ.notEmpty.asleep == {}
  {
    assert Fits(s.clients[t], FactsOf(s));
  }

  lemma WorkerAwake(s: State)
    requires WaitersFit(s) && QueueInv(s.pushQ) && s.pushQ.items != []
    ensures WORKER !in s.pushQ.notEmpty.asleep
  {
  }

  /** An Append blocked on a full queue is never abandoned: another thread that
      is not waiting for it can step. */
  lemma BlockedAppendHasHelp(s: State, t: Tid) returns (a: Action)
    requires Inv(s) && t in s.pushQ.notFull.asleep
    ensures Enabled(s, a)
    ensures a.Worker? || a.Stopper? || (a.Client? && a.t != t && a.clientOp.AppendPush?)
  {
    var q := s.pushQ;
    assert t in q.notFull.Waiting();
    if q.notFull.woken != {} {
      var u :| u in q.notFull.woken;
      assert u in q.notFull.Waiting();
      a := Client(u, AppendPush(AnySleeper(q.notEmpty)));
    } else if (s.worker.Locking? || s.worker.Recording?) && s.mutex.Some? {
      var h := s.mutex.value;
      match s.clients[h]
      case StopClosingPush => a := Stopper(h, StopClosePush);
      case StopClosingResult => a := Stopper(h, StopCloseResult);
      case StopUnlocking => a := Stopper(h, StopUnlock);
    } else {
      WorkerAwake(s);
      a := Worker(NextWorkerOp(s));
    }
  }

  // ---------------------------------------------------------------------
  // Delivery of the results
  // ---------------------------------------------------------------------

  predicate HasRoom<T>(q: QueueState<T>) { !q.closed && |q.items| < q.capacity }

  /** The result that one step of the worker gets into the result queue, if any. */
  ghost function StoredBy(s: State, a: Action): seq<Transcription>
    requires Enabled(s, a)
  {
    match a
    case Worker(WorkerStore(w)) =>
      if s.worker.reply.Good? && HasRoom(s.resultQ) then [s.worker.reply.result] else []
    case _ => []
  }

  ghost function Stored(s: State, run: seq<Action>): seq<Transcription>
    requires Legal(s, run)
    decreases |run|
  {
    if run == [] then [] else StoredBy(s, run[0]) + Stored(Step(s, run[0]), run[1..])
  }

  lemma {:induction false} ClientStoresNothing(s: State, t: Tid, op: ClientOp)
    requires EnabledClient(s, t, op) && (op.StartReturn? ==> s.resultQ.pushed == [])
    ensures StepClient(s, t, op).resultQ.pushed == s.resultQ.pushed
  {
  }

  lemma {:induction false} StopStoresNothing(s: State, t: Tid, op: StopOp)
    requires EnabledStop(s, t, op)
    ensures StepStop(s, t, op).resultQ.pushed == s.resultQ.pushed
  {
  }

  lemma {:induction false} WorkerStores(s: State, op: WorkerOp)
    requires EnabledWorker(s, op)
    ensures StepWorker(s, op).resultQ.pushed == s.resultQ.pushed + StoredBy(s, Worker(op))
  {
  }

  lemma {:induction false} StepStores(s: State, a: Action)
    requires Inv(s) && Enabled(s, a)
    ensures Step(s, a).resultQ.pushed == s.resultQ.pushed + StoredBy(s, a)
  {
    hide WaitersFit, FitInv, DeliveryInv, StopInv, HandleInv, FinalInv;
    match a
    case Client(t, op) => ClientStoresNothing(s, t, op);
    case Stopper(t, op) => StopStoresNothing(s, t, op);
    case Worker(op) => WorkerStores(s, op);
    case Wake(op) =>
  }

  lemma {:induction false} StoredIsPushed(s: State, run: seq<Action>)
    requires Inv(s) && Legal(s, run)
    ensures Run(s, run).resultQ.pushed == s.resultQ.pushed + Stored(s, run)
    decreases |run|
  {
    hide Inv, Enabled, Step, StoredBy;
    if run != [] {
      StepStores(s, run[0]);
      StepKeepsInv(s, run[0]);
      StoredIsPushed(Step(s, run[0]), run[1..]);
    }
  }

  /** The results with which the core answered pushes, in order. */
  ghost function GoodReplies(log: seq<Command>): seq<Transcription> {
    if log == [] then []
    else
      var front, c := GoodReplies(log[..|log| - 1]), log[|log| - 1];
      if c.StreamPush? && c.reply.Good? then front + [c.reply.result] else front
  }

  /** The result that the worker has been answered and has not stored yet. */
  ghost function InHand(worker: WorkerPc): seq<Transcription> {
    if worker.Storing? && worker.reply.Good? then [worker.reply.result] else []
  }

  /** No result meets a full or closed queue. */
  ghost predicate RoomyRun(s: State, run: seq<Action>)
    requires Legal(s, run)
    decreases |run|
  {
    run == [] ||
    ((run[0].Worker? && run[0].workerOp.WorkerStore? && s.worker.reply.Good? ==> HasRoom(s.resultQ))
     && RoomyRun(Step(s, run[0]), run[1..]))
  }

  /** A stored result is the next one for the readers. */
  lemma StoreDoes(s: State, w: Tid)
    requires Inv(s) && EnabledWorker(s, WorkerStore(w)) && s.worker.reply.Good?
    ensures var q, r := s.resultQ, StepWorker(s, WorkerStore(w)).resultQ;
            Entered(q, r, s.worker.reply.result, !q.closed && |q.items| < q.capacity)
  {
    hide Inv, TryPushPass;
    TryPushDoes(s.resultQ, s.worker.reply.result, w);
  }

  lemma RepliesGrow(log: seq<Command>, c: Command)
    ensures GoodReplies(log + [c])
         == GoodReplies(log) + if c.StreamPush? && c.reply.Good? then [c.reply.result] else []
  {
    assert (log + [c])[..|log|] == log;
  }

  lemma NothingInHand(stored: seq<Transcription>)
    ensures stored + [] == stored && InHand(Popping) == [] && InHand(NotStarted) == []
  {
  }

  lemma {:induction false} ClientRepliesNothing(s: State, t: Tid, op: ClientOp)
    requires EnabledClient(s, t, op) && s.resultQ.pushed + InHand(s.worker) == GoodReplies(s.log)
    requires op.StartReturn? ==> s.resultQ.pushed == [] && InHand(s.worker) == []
    ensures var r := StepClient(s, t, op); r.resultQ.pushed + InHand(r.worker) == GoodReplies(r.log)
  {
    hide PushPass, PopPass, GoodReplies, InHand;
    match op
    case StartCall(started) => RepliesGrow(s.log, StreamStart(started));
    case StartReturn => NothingInHand(s.resultQ.pushed);
    case ReadPop(expired, w) => PopDoes(s.resultQ, t, expired, w);
    case _ =>
  }

  lemma {:induction false} WorkerReplies(s: State, op: WorkerOp)
    requires EnabledWorker(s, op) && s.resultQ.pushed + InHand(s.worker) == GoodReplies(s.log)
    requires op.WorkerStore? && s.worker.reply.Good? ==> HasRoom(s.resultQ)
    ensures var r := StepWorker(s, op); r.resultQ.pushed + InHand(r.worker) == GoodReplies(r.log)
  {
    hide PopPass, TryPushPass, GoodReplies;
    match op
    case WorkerCall(reply) =>
      RepliesGrow(s.log, StreamPush(s.worker.handle, s.worker.chunk, reply));
      NothingInHand(s.resultQ.pushed);
    case WorkerStore(w) =>
      if s.worker.reply.Good? { TryPushDoes(s.resultQ, s.worker.reply.result, w); }
      NothingInHand(s.resultQ.pushed);
      NothingInHand(StepWorker(s, op).resultQ.pushed);
    case _ => NothingInHand(s.resultQ.pushed);
  }

  lemma {:induction false} StopRepliesNothing(s: State, t: Tid, op: StopOp)
    requires EnabledStop(s, t, op) && s.resultQ.pushed + InHand(s.worker) == GoodReplies(s.log)
    ensures var r := StepStop(s, t, op); r.resultQ.pushed + InHand(r.worker) == GoodReplies(r.log)
  {
    hide GoodReplies;
    if op.StopCall? { RepliesGrow(s.log, StreamStop(s.clients[t].handle, op.reply)); }
  }

  lemma {:induction false} StepReplies(s: State, a: Action)
    requires Inv(s) && Enabled(s, a) && s.resultQ.pushed + InHand(s.worker) == GoodReplies(s.log)
    requires a.Worker? && a.workerOp.WorkerStore? && s.worker.reply.Good? ==> HasRoom(s.resultQ)
    ensures var r := Step(s, a); r.resultQ.pushed + InHand(r.worker) == GoodReplies(r.log)
  {
    hide WaitersFit, FitInv, StopInv, HandleInv, FinalInv, GoodReplies, HasRoom, StepClient, StepStop, StepWorker;
    match a
    case Client(t, op) => ClientRepliesNothing(s, t, op);
    case Stopper(t, op) => StopRepliesNothing(s, t, op);
    case Worker(op) => WorkerReplies(s, op);
    case Wake(op) =>
  }

  lemma {:induction false} RunReplies(s: State, run: seq<Action>)
    requires Inv(s) && Legal(s, run) && RoomyRun(s, run)
    requires s.resultQ.pushed + InHand(s.worker) == GoodReplies(s.log)
    ensures var r := Run(s, run); r.resultQ.pushed + InHand(r.worker) == GoodReplies(r.log)
    decreases |run|
  {
    hide Inv, Enabled, Step, HasRoom, GoodReplies, InHand;
    if run != [] {
      StepReplies(s, run[0]);
      StepKeepsInv(s, run[0]);
      RunReplies(Step(s, run[0]), run[1..]);
    }
  }

  /** If every store meets an open queue with room, all results but the one in hand are stored. */
  lemma RepliesAreStored(run: seq<Action>)
    requires Legal(Init(), run) && RoomyRun(Init(), run)
    ensures var s := Run(Init(), run); Stored(Init(), run) + InHand(s.worker) == GoodReplies(s.log)
  {
    InitInv();
    hide Inv;
    RunReplies(Init(), run);
    StoredIsPushed(Init(), run);
  }

  lemma HandedSoFar(s: State)
    requires Inv(s)
    ensures Queued(s.handed) <= s.resultQ.pushed && FinalIsLast(s.handed)
    ensures !NoFinal(s.handed) ==>
              && Queued(s.handed) == s.resultQ.pushed && s.resultQ.Drained()
              && s.handed != [] && EndsWith(s.log, StreamStop(s.handle, Good(s.handed[|s.handed| - 1].result)))
  {
  }

  /** Readers together get the stored results in order, none lost or repeated,
      and the final result at most once and after all of them; it is the one the
      core answered to the stop. */
  lemma Results(run: seq<Action>)
    requires Legal(Init(), run)
    ensures var s := Run(Init(), run);
            && Queued(s.handed) <= Stored(Init(), run)
            && FinalIsLast(s.handed)
            && (!NoFinal(s.handed) ==>
                  && Queued(s.handed) == Stored(Init(), run)
                  && s.resultQ.Drained()
                  && s.log != [] && s.log[|s.log| - 1].StreamStop?
                  && s.log[|s.log| - 1].reply == Good(s.handed[|s.handed| - 1].result))
  {
    InitInv();
    RunKeepsInv(Init(), run);
    hide Inv;
    StoredIsPushed(Init(), run);
    HandedSoFar(Run(Init(), run));
  }
}
