/**
  What some threads of a live audio session can rely on while the others run
  (sdk/cpp/src/live_audio_session.cpp).
*/
module LiveAudioRely {
  import opened ThreadSafeQueue
  import opened LiveAudioSession
  import opened LiveAudioInvariant

  /** The step is one of these threads' own; a spurious wake-up is nobody's. */
  predicate By(a: Action, who: set<Tid>) {
    match a
    case Client(t, _) => t in who
    case Stopper(t, _) => t in who
    case Worker(_) => WORKER in who
    case Wake(_) => false
  }

  /** They stay where they are in their calls, and nobody puts them to sleep. */
  ghost predicate PlacesKept(s: State, r: State, who: set<Tid>) {
    && (forall t :: t in who && t in s.clients ==> t in r.clients && r.clients[t] == s.clients[t])
    && (forall t :: t in who && t !in s.clients ==> t !in r.clients)
    && (forall t :: t in who && t !in s.pushQ.notFull.asleep ==> t !in r.pushQ.notFull.asleep)
    && (forall t :: t in who && t !in s.resultQ.notEmpty.asleep ==> t !in r.resultQ.notEmpty.asleep)
  }

  ghost predicate Running(worker: WorkerPc) { !worker.NotStarted? && !worker.Done? }

  /**
    Only a running worker moves itself, talks to the core and empties a closed queue, and
    whoever joins it waits for it.
  */
  ghost predicate WorkerKept(s: State, r: State, who: set<Tid>) {
    && (s.worker.Done? ==> r.worker.Done?)
    && (WORKER in who && Running(s.worker) ==>
          && r.worker == s.worker && r.log == s.log && r.errorMessage == s.errorMessage
          && (s.pushQ.closed ==> r.pushQ.closed && r.pushQ.items == s.pushQ.items)
          && (forall t :: t in s.clients && s.clients[t].StopJoining? ==>
                t in r.clients && r.clients[t] == s.clients[t]))
  }

  /** What nobody takes back. */
  ghost predicate SessionKept(s: State, r: State) {
    && (s.phase == Stopped ==> r.phase == Stopped)
    && (Up(s.phase) ==> Up(r.phase) && r.handle == s.handle)
    && (Up(s.phase) && s.pushQ.closed ==> r.pushQ.closed && r.pushQ.pushed == s.pushQ.pushed)
    && (Up(s.phase) && s.resultQ.closed ==> r.resultQ.closed)
    && (Up(s.phase) && s.resultQ.hasError ==> r.resultQ.hasError)
    && (s.hasFinal || !NoFinal(s.handed) ==> r.hasFinal || !NoFinal(r.handed))
  }

  /** Once the worker is done, log, final result and error are in the hands of the thread inside Stop. */
  ghost predicate StopKept(s: State, r: State, who: set<Tid>) {
    forall t :: t in who && t in s.clients && s.clients[t].IsStop() && s.worker.Done? ==>
      && r.log == s.log && r.finalResult == s.finalResult
      && r.resultQ.hasError == s.resultQ.hasError && r.resultQ.errorMessage == s.resultQ.errorMessage
  }

  ghost predicate Rely(s: State, r: State, who: set<Tid>) {
    PlacesKept(s, r, who) && WorkerKept(s, r, who) && SessionKept(s, r) && StopKept(s, r, who)
  }

  lemma RelySame(s: State, who: set<Tid>)
    ensures Rely(s, s, who)
  {
  }

  lemma RelyTrans(s: State, r: State, q: State, who: set<Tid>)
    requires Rely(s, r, who) && Rely(r, q, who)
    ensures Rely(s, q, who)
  {
    hide NoFinal;
  }

  lemma HandedFinal(handed: seq<Handed>, h: Handed)
    ensures !NoFinal(handed) || h.Final? ==> !NoFinal(handed + [h])
  {
    if !NoFinal(handed) {
      var i :| 0 <= i < |handed| && handed[i].Final?;
      assert (handed + [h])[i] == handed[i];
    } else if h.Final? {
      assert (handed + [h])[|handed|] == h;
    }
  }

  /** What the lemmas about steps need of the invariant. */
  ghost predicate ThreadsAndWorker(s: State) {
    && ThreadsInv(s.phase, s.mutex, s.clients) && (Up(s.phase) <==> !s.worker.NotStarted?)
    && forall t :: t in s.clients && s.clients[t].StopCalling? ==> s.worker.Done?
  }

  lemma InvGives(s: State)
    requires Inv(s)
    ensures ThreadsAndWorker(s)
  {
    hide ThreadsInv;
    forall t | t in s.clients && s.clients[t].StopCalling?
      ensures s.worker.Done?
    {
      assert Fits(s.clients[t], FactsOf(s));
    }
  }

  lemma {:induction false} ClientKeepsPlaces(s: State, t: Tid, op: ClientOp, who: set<Tid>)
    requires ThreadsAndWorker(s) && EnabledClient(s, t, op) && t !in who
    ensures PlacesKept(s, StepClient(s, t, op), who)
  {
    hide ThreadsAndWorker;
  }

  lemma {:induction false} ClientKeepsWorker(s: State, t: Tid, op: ClientOp, who: set<Tid>)
    requires ThreadsAndWorker(s) && EnabledClient(s, t, op) && t !in who
    ensures WorkerKept(s, StepClient(s, t, op), who) && StopKept(s, StepClient(s, t, op), who)
  {
  }

  lemma PassesKeepClosed<T>(q: QueueState<T>, t: Tid, x: T, expired: bool, w: Tid)
    ensures q.notEmpty.MayWake(w) ==> var r := PushPass(q, t, x, expired, w).0;
              r.closed == q.closed && (q.closed ==> r.pushed == q.pushed) && r.hasError == q.hasError
    ensures q.notFull.MayWake(w) ==> var r := PopPass(q, t, expired, w).0;
              r.closed == q.closed && r.pushed == q.pushed && r.hasError == q.hasError
  {
  }

  lemma {:induction false} StartKeepsSession(s: State, t: Tid, op: ClientOp)
    requires ThreadsAndWorker(s) && EnabledClient(s, t, op)
    requires op.StartEnter? || op.StartCall? || op.StartReturn?
    ensures SessionKept(s, StepClient(s, t, op))
  {
  }

  lemma {:induction false} AppendKeepsSession(s: State, t: Tid, op: ClientOp)
    requires EnabledClient(s, t, op) && (op.AppendEnter? || op.AppendPush?)
    ensures SessionKept(s, StepClient(s, t, op))
  {
    hide PushPass;
    if op.AppendPush? {
      PassesKeepClosed(s.pushQ, t, s.clients[t].chunk, false, op.w);
    }
  }

  lemma {:induction false} ReadKeepsSession(s: State, t: Tid, op: ClientOp)
    requires EnabledClient(s, t, op) && (op.ReadEnter? || op.ReadPop? || op.ReadFinal?)
    ensures SessionKept(s, StepClient(s, t, op))
  {
    var r := StepClient(s, t, op);
    if r.handed != s.handed {
      HandedFinal(s.handed, r.handed[|s.handed|]);
    }
    hide NoFinal, PopPass;
    if op.ReadPop? {
      PassesKeepClosed(s.resultQ, t, Transcription(""), op.expired, op.w);
    }
  }

  lemma {:induction false} ClientKeepsSession(s: State, t: Tid, op: ClientOp)
    requires ThreadsAndWorker(s) && EnabledClient(s, t, op)
    ensures SessionKept(s, StepClient(s, t, op))
  {
    hide SessionKept, StepClient, ThreadsAndWorker;
    if op.StartEnter? || op.StartCall? || op.StartReturn? {
      StartKeepsSession(s, t, op);
    } else if op.AppendEnter? || op.AppendPush? {
      AppendKeepsSession(s, t, op);
    } else {
      ReadKeepsSession(s, t, op);
    }
  }

  lemma {:induction false} ClientRely(s: State, t: Tid, op: ClientOp, who: set<Tid>)
    requires ThreadsAndWorker(s) && EnabledClient(s, t, op) && t !in who
    ensures Rely(s, StepClient(s, t, op), who)
  {
    hide ThreadsAndWorker, PlacesKept, WorkerKept, StopKept, SessionKept;
    ClientKeepsPlaces(s, t, op, who);
    ClientKeepsWorker(s, t, op, who);
    ClientKeepsSession(s, t, op);
  }

  lemma {:induction false} StopKeepsSession(s: State, t: Tid, op: StopOp)
    requires ThreadsAndWorker(s) && EnabledStop(s, t, op)
    ensures SessionKept(s, StepStop(s, t, op))
  {
  }

  lemma {:induction false} StopKeepsPlaces(s: State, t: Tid, op: StopOp, who: set<Tid>)
    requires EnabledStop(s, t, op) && t !in who
    ensures PlacesKept(s, StepStop(s, t, op), who)
  {
  }

  lemma {:induction false} StopRely(s: State, t: Tid, op: StopOp, who: set<Tid>)
    requires ThreadsAndWorker(s) && EnabledStop(s, t, op) && t !in who
    ensures Rely(s, StepStop(s, t, op), who)
  {
    StopKeepsSession(s, t, op);
    StopKeepsPlaces(s, t, op, who);
    hide SessionKept, PlacesKept;
  }

  lemma {:induction false} WorkerRely(s: State, op: WorkerOp, who: set<Tid>)
    requires EnabledWorker(s, op) && WORKER !in who && WORKER !in s.clients
    ensures Rely(s, StepWorker(s, op), who)
  {
  }

  lemma {:induction false} WakeRely(s: State, op: WakeOp, who: set<Tid>)
    requires EnabledWake(s, op)
    ensures Rely(s, StepWake(s, op), who)
  {
  }

  /** A step of anybody else leaves these threads all of that. */
  lemma {:induction false} StepRely(s: State, a: Action, who: set<Tid>)
    requires Inv(s) && Enabled(s, a) && !By(a, who)
    ensures Rely(s, Step(s, a), who)
  {
    InvGives(s);
    hide Inv, Rely, StepClient, StepStop, StepWorker, StepWake;
    match a
    case Client(t, op) => ClientRely(s, t, op, who);
    case Stopper(t, op) => StopRely(s, t, op, who);
    case Worker(op) => WorkerRely(s, op, who);
    case Wake(op) => WakeRely(s, op, who);
  }

  lemma RelyFewer(s: State, r: State, who: set<Tid>, fewer: set<Tid>)
    requires Rely(s, r, who) && fewer <= who
    ensures Rely(s, r, fewer)
  {
    hide NoFinal;
  }
}
