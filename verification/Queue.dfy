/**
  The bounded closable queue of sdk/cpp/src/thread_safe_queue.h.

  Every public operation of the queue is a loop "take the mutex, test the wait
  predicate, sleep on a condition variable or do the work".  One pass through
  that critical section is one atomic step here: a thread that must wait ends
  its pass asleep, and runs another pass after it has been woken.  Which
  sleeper notify_one wakes, spurious wake-ups and time-outs are all left open.
*/
module ThreadSafeQueue {

  type Tid = nat

  /** The threads blocked on a condition variable, and those already released
      from it that have not yet got the queue's mutex back. */
  datatype CondVar = CondVar(asleep: set<Tid>, woken: set<Tid>) {

    function Waiting(): set<Tid> { asleep + woken }

    predicate MayWake(w: Tid) { asleep != {} ==> w in asleep }

    function NotifyOne(w: Tid): CondVar
      requires MayWake(w)
    {
      if asleep == {} then this else Wake(w)
    }

    function NotifyAll(): (c: CondVar)
      ensures c.Waiting() == Waiting()
    {
      CondVar({}, woken + asleep)
    }

    /** One sleeper stops waiting: notified, timed out or woken spuriously. */
    function Wake(t: Tid): (c: CondVar)
      ensures c.Waiting() == Waiting() + {t}
    {
      CondVar(asleep - {t}, woken + {t})
    }

    function Resume(t: Tid): CondVar { CondVar(asleep, woken - {t}) }

    function Sleep(t: Tid): CondVar { CondVar(asleep + {t}, woken) }
  }

  const NOBODY := CondVar({}, {})

  /** The queue's fields, plus the history of what went in and what came out. */
  datatype QueueState<T> = QueueState(
    capacity: nat,
    items: seq<T>,
    closed: bool,
    hasError: bool,
    errorMessage: string,
    notEmpty: CondVar,
    notFull: CondVar,
    pushed: seq<T>,
    popped: seq<T>)
  {
    predicate CanPush() { |items| < capacity || closed }

    predicate CanPop() { items != [] || closed || hasError }

    predicate Drained() { closed && items == [] }
  }

  datatype PushOutcome = Enqueued | Rejected | PushBlocked

  datatype PopOutcome<T> = Item(value: T) | Timeout | Closed | Error | PopBlocked

  function NewQueue<T>(capacity: nat): QueueState<T> {
    QueueState(capacity, [], false, false, "", NOBODY, NOBODY, [], [])
  }

  // ---------------------------------------------------------------------
  // One pass through each critical section
  // ---------------------------------------------------------------------

  function Enqueue<T>(q: QueueState<T>, x: T, w: Tid): QueueState<T>
    requires q.notEmpty.MayWake(w)
  {
    q.(items := q.items + [x], pushed := q.pushed + [x], notEmpty := q.notEmpty.NotifyOne(w))
  }

  /** Push, and TryPushFor when `expired` says that its time is up. */
  function PushPass<T>(q: QueueState<T>, t: Tid, x: T, expired: bool, w: Tid): (QueueState<T>, PushOutcome)
    requires q.notEmpty.MayWake(w)
  {
    var r := q.(notFull := q.notFull.Resume(t));
    if !q.CanPush() then
      if expired then (r, Rejected) else (r.(notFull := r.notFull.Sleep(t)), PushBlocked)
    else if q.closed then (r, Rejected)
    else (Enqueue(r, x, w), Enqueued)
  }

  function TryPushPass<T>(q: QueueState<T>, x: T, w: Tid): (QueueState<T>, PushOutcome)
    requires q.notEmpty.MayWake(w)
  {
    if q.closed || |q.items| >= q.capacity then (q, Rejected) else (Enqueue(q, x, w), Enqueued)
  }

  /** Pop, and TryPop when `expired` says that its time is up. */
  function PopPass<T>(q: QueueState<T>, t: Tid, expired: bool, w: Tid): (QueueState<T>, PopOutcome<T>)
    requires q.notFull.MayWake(w)
  {
    var r := q.(notEmpty := q.notEmpty.Resume(t));
    if !q.CanPop() then
      if expired then (r, Timeout) else (r.(notEmpty := r.notEmpty.Sleep(t)), PopBlocked)
    else if q.hasError && q.items == [] then (r, Error)
    else if q.items == [] then (r, Closed)
    else (r.(items := q.items[1..], popped := q.popped + [q.items[0]], notFull := q.notFull.NotifyOne(w)),
          Item(q.items[0]))
  }

  function ClosePass<T>(q: QueueState<T>): QueueState<T> {
    q.(closed := true, notEmpty := q.notEmpty.NotifyAll(), notFull := q.notFull.NotifyAll())
  }

  function CloseWithErrorPass<T>(q: QueueState<T>, message: string): QueueState<T> {
    ClosePass(q).(hasError := true, errorMessage := message)
  }

  // ---------------------------------------------------------------------
  // Any number of threads: runs of the queue
  // ---------------------------------------------------------------------

  datatype QueueAction<T> =
    | Push(t: Tid, x: T, expired: bool, w: Tid)
    | TryPush(x: T, w: Tid)
    | Pop(t: Tid, expired: bool, w: Tid)
    | Close
    | CloseWithError(message: string)
    | WakeConsumer(t: Tid)
    | WakeProducer(t: Tid)

  predicate QueueEnabled<T>(q: QueueState<T>, a: QueueAction<T>) {
    match a
    case Push(t, _, _, w) => t !in q.notFull.asleep && q.notEmpty.MayWake(w)
    case TryPush(_, w) => q.notEmpty.MayWake(w)
    case Pop(t, _, w) => t !in q.notEmpty.asleep && q.notFull.MayWake(w)
    case Close => true
    case CloseWithError(_) => true
    case WakeConsumer(t) => t in q.notEmpty.asleep
    case WakeProducer(t) => t in q.notFull.asleep
  }

  function QueueStep<T>(q: QueueState<T>, a: QueueAction<T>): QueueState<T>
    requires QueueEnabled(q, a)
  {
    match a
    case Push(t, x, expired, w) => PushPass(q, t, x, expired, w).0
    case TryPush(x, w) => TryPushPass(q, x, w).0
    case Pop(t, expired, w) => PopPass(q, t, expired, w).0
    case Close => ClosePass(q)
    case CloseWithError(message) => CloseWithErrorPass(q, message)
    case WakeConsumer(t) => q.(notEmpty := q.notEmpty.Wake(t))
    case WakeProducer(t) => q.(notFull := q.notFull.Wake(t))
  }

  ghost predicate QueueLegal<T>(q: QueueState<T>, run: seq<QueueAction<T>>)
    decreases |run|
  {
    run == [] || (QueueEnabled(q, run[0]) && QueueLegal(QueueStep(q, run[0]), run[1..]))
  }

  ghost function QueueRun<T>(q: QueueState<T>, run: seq<QueueAction<T>>): QueueState<T>
    requires QueueLegal(q, run)
    decreases |run|
  {
    if run == [] then q else QueueRun(QueueStep(q, run[0]), run[1..])
  }

  // ---------------------------------------------------------------------
  // No wake-up is lost
  // ---------------------------------------------------------------------

  /** Somebody asleep is always covered by enough threads on their way. */
  ghost predicate Covered(c: CondVar, available: int) {
    c.asleep !! c.woken && (c.asleep != {} ==> available <= |c.woken|)
  }

  ghost predicate QueueInv<T>(q: QueueState<T>) {
    && |q.items| <= q.capacity
    && (q.hasError ==> q.closed)
    && (q.closed ==> q.notEmpty.asleep == {} && q.notFull.asleep == {})
    && Covered(q.notEmpty, |q.items|)
    && Covered(q.notFull, q.capacity - |q.items|)
    && q.pushed == q.popped + q.items
  }

  lemma WakeCounts(c: CondVar, t: Tid)
    requires c.asleep !! c.woken && t in c.asleep
    ensures |c.Wake(t).woken| == |c.woken| + 1
    ensures c.Wake(t).asleep !! c.Wake(t).woken
  {
  }

  lemma ResumeCounts(c: CondVar, t: Tid)
    requires c.asleep !! c.woken
    ensures |c.Resume(t).woken| == |c.woken| - (if t in c.woken then 1 else 0)
    ensures c.Resume(t).asleep !! c.Resume(t).woken
  {
    if t !in c.woken {
      assert c.woken - {t} == c.woken;
    }
  }

  lemma NotifyCovers(c: CondVar, available: int, w: Tid)
    requires Covered(c, available) && c.MayWake(w)
    ensures Covered(c.NotifyOne(w), available + 1)
  {
    if c.asleep != {} {
      WakeCounts(c, w);
    }
  }

  lemma PushPreserves<T>(q: QueueState<T>, t: Tid, x: T, expired: bool, w: Tid)
    requires QueueInv(q) && q.notEmpty.MayWake(w) && t !in q.notFull.asleep
    ensures QueueInv(PushPass(q, t, x, expired, w).0)
  {
    ResumeCounts(q.notFull, t);
    NotifyCovers(q.notEmpty, |q.items|, w);
  }

  lemma TryPushPreserves<T>(q: QueueState<T>, x: T, w: Tid)
    requires QueueInv(q) && q.notEmpty.MayWake(w)
    ensures QueueInv(TryPushPass(q, x, w).0)
  {
    NotifyCovers(q.notEmpty, |q.items|, w);
  }

  lemma PopPreserves<T>(q: QueueState<T>, t: Tid, expired: bool, w: Tid)
    requires QueueInv(q) && q.notFull.MayWake(w) && t !in q.notEmpty.asleep
    ensures QueueInv(PopPass(q, t, expired, w).0)
  {
    ResumeCounts(q.notEmpty, t);
    NotifyCovers(q.notFull, q.capacity - |q.items|, w);
  }

  lemma StepPreserves<T>(q: QueueState<T>, a: QueueAction<T>)
    requires QueueInv(q) && QueueEnabled(q, a)
    ensures QueueInv(QueueStep(q, a))
  {
    match a
    case Push(t, x, expired, w) => PushPreserves(q, t, x, expired, w);
    case TryPush(x, w) => TryPushPreserves(q, x, w);
    case Pop(t, expired, w) => PopPreserves(q, t, expired, w);
    case Close =>
    case CloseWithError(message) =>
    case WakeConsumer(t) => WakeCounts(q.notEmpty, t);
    case WakeProducer(t) => WakeCounts(q.notFull, t);
  }

  lemma {:induction false} RunPreserves<T>(q: QueueState<T>, run: seq<QueueAction<T>>)
    requires QueueInv(q) && QueueLegal(q, run)
    ensures QueueInv(QueueRun(q, run))
    decreases |run|
  {
    if run != [] {
      StepPreserves(q, run[0]);
      RunPreserves(QueueStep(q, run[0]), run[1..]);
    }
  }

  /** However many threads use a fresh queue, and however they interleave: a
      sleeping consumer never outnumbers its cover, neither does a sleeping
      producer, and nobody sleeps on a closed queue. */
  lemma NoLostWakeups<T>(capacity: nat, run: seq<QueueAction<T>>)
    requires QueueLegal(NewQueue(capacity), run)
    ensures var q := QueueRun(NewQueue(capacity), run);
            && (q.notEmpty.asleep != {} ==> |q.items| <= |q.notEmpty.woken|)
            && (q.notFull.asleep != {} ==> q.capacity - |q.items| <= |q.notFull.woken|)
            && (q.closed ==> q.notEmpty.asleep == {} && q.notFull.asleep == {})
            // so once every woken thread has run, nobody sleeps in front of work
            && (q.notEmpty.woken == {} && q.items != [] ==> q.notEmpty.asleep == {})
            && (q.notFull.woken == {} && |q.items| < q.capacity ==> q.notFull.asleep == {})
  {
    RunPreserves(NewQueue(capacity), run);
  }

  /** What consumers got is what producers got in: the same items in the same
      order, nothing lost, repeated or invented; the rest is still queued. */
  lemma FifoDelivery<T>(capacity: nat, run: seq<QueueAction<T>>)
    requires QueueLegal(NewQueue(capacity), run)
    ensures var q := QueueRun(NewQueue(capacity), run);
            q.pushed == q.popped + q.items && |q.items| <= q.capacity
  {
    RunPreserves(NewQueue(capacity), run);
  }

  lemma {:induction false} ClosedStaysClosed<T>(q: QueueState<T>, run: seq<QueueAction<T>>)
    requires q.closed && QueueLegal(q, run)
    ensures QueueRun(q, run).closed && QueueRun(q, run).pushed == q.pushed
    decreases |run|
  {
    if run != [] {
      ClosedStaysClosed(QueueStep(q, run[0]), run[1..]);
    }
  }

  /** A pass adds at most its own thread to those waiting, and only if it blocks. */
  lemma PushWaiters<T>(q: QueueState<T>, t: Tid, x: T, expired: bool, w: Tid)
    requires q.notEmpty.MayWake(w)
    ensures var (r, outcome) := PushPass(q, t, x, expired, w);
            && r.notEmpty.Waiting() == q.notEmpty.Waiting()
            && r.notFull.Waiting() <= q.notFull.Waiting() + {t}
            && (t !in q.notFull.asleep && outcome != PushBlocked ==> r.notFull.Waiting() == q.notFull.Waiting() - {t})
  {
  }

  lemma PopWaiters<T>(q: QueueState<T>, t: Tid, expired: bool, w: Tid)
    requires q.notFull.MayWake(w)
    ensures var (r, outcome) := PopPass(q, t, expired, w);
            && r.notFull.Waiting() == q.notFull.Waiting()
            && r.notEmpty.Waiting() <= q.notEmpty.Waiting() + {t}
            && (t !in q.notEmpty.asleep && outcome != PopBlocked ==> r.notEmpty.Waiting() == q.notEmpty.Waiting() - {t})
  {
  }

  // ---------------------------------------------------------------------
  // What one pass does
  // ---------------------------------------------------------------------

  /** The item goes to the end of the queue, or nothing enters it. */
  ghost predicate Entered<T>(q: QueueState<T>, r: QueueState<T>, x: T, entered: bool) {
    if entered then r.items == q.items + [x] && r.pushed == q.pushed + [x]
    else r.items == q.items && r.pushed == q.pushed
  }

  /** An open queue with room takes the item, a closed one never does, and in front of a full one the pusher waits. */
  lemma PushDoes<T>(q: QueueState<T>, t: Tid, x: T, expired: bool, w: Tid)
    requires q.notEmpty.MayWake(w)
    ensures var (r, outcome) := PushPass(q, t, x, expired, w);
            && Entered(q, r, x, !q.closed && |q.items| < q.capacity)
            && (outcome == Enqueued <==> !q.closed && |q.items| < q.capacity)
            && (outcome == PushBlocked <==> !q.closed && |q.items| >= q.capacity && !expired)
            && (t in r.notFull.asleep <==> outcome == PushBlocked || t in q.notFull.asleep)
            && r.closed == q.closed && r.hasError == q.hasError && r.popped == q.popped && r.capacity == q.capacity
  {
  }

  /** The same without waiting. */
  lemma TryPushDoes<T>(q: QueueState<T>, x: T, w: Tid)
    requires q.notEmpty.MayWake(w)
    ensures var (r, outcome) := TryPushPass(q, x, w);
            && Entered(q, r, x, !q.closed && |q.items| < q.capacity)
            && outcome == (if !q.closed && |q.items| < q.capacity then Enqueued else Rejected)
            && r.closed == q.closed && r.hasError == q.hasError && r.popped == q.popped && r.capacity == q.capacity
  {
  }

  /** A queued item is handed out first; error, close and time-out show on an empty queue only. */
  lemma PopDoes<T>(q: QueueState<T>, t: Tid, expired: bool, w: Tid)
    requires q.notFull.MayWake(w)
    ensures var (r, outcome) := PopPass(q, t, expired, w);
            && (q.items != [] ==> outcome == Item(q.items[0]) && q.items == [q.items[0]] + r.items
                                  && r.popped == q.popped + [q.items[0]])
            && (q.items == [] ==> r.items == [] && r.popped == q.popped
                                  && outcome == if q.hasError then Error else if q.closed then Closed
                                                else if expired then Timeout else PopBlocked)
            && (t in r.notEmpty.asleep <==> outcome == PopBlocked || t in q.notEmpty.asleep)
            && r.closed == q.closed && r.hasError == q.hasError && r.pushed == q.pushed && r.capacity == q.capacity
  {
  }

  // ---------------------------------------------------------------------
  // The queue as the program writes it
  // ---------------------------------------------------------------------

  class Queue<T(0)> {
    const capacity: nat
    var items: seq<T>
    var closed: bool
    var hasError: bool
    var errorMessage: string
    var notEmpty: CondVar
    var notFull: CondVar
    ghost var pushed: seq<T>
    ghost var popped: seq<T>

    ghost function View(): QueueState<T>
      reads this
    {
      QueueState(capacity, items, closed, hasError, errorMessage, notEmpty, notFull, pushed, popped)
    }

    constructor (capacity: nat)
      ensures View() == NewQueue(capacity) && QueueInv(View())
    {
      this.capacity := capacity;
      items, closed, hasError, errorMessage := [], false, false, "";
      notEmpty, notFull := NOBODY, NOBODY;
      pushed, popped := [], [];
    }

    /** The sleeper that a notify_one issued now would wake. */
    static method Sleeper(c: CondVar) returns (w: Tid)
      ensures c.MayWake(w)
    {
      w := 0;
      if c.asleep != {} {
        w :| w in c.asleep;
      }
    }

    method Push(t: Tid, item: T, expired: bool) returns (outcome: PushOutcome, w: Tid)
      requires QueueInv(View()) && t !in notFull.asleep
      modifies this
      ensures QueueInv(View()) && old(View()).notEmpty.MayWake(w)
      ensures (View(), outcome) == PushPass(old(View()), t, item, expired, w)
      ensures outcome == Enqueued <==> !old(closed) && |old(items)| < capacity
      ensures outcome == PushBlocked <==> !old(closed) && |old(items)| >= capacity && !expired
      ensures items == if outcome == Enqueued then old(items) + [item] else old(items)
    {
      hide QueueInv;
      w := Sleeper(notEmpty);
      PushPreserves(View(), t, item, expired, w);
      notFull := notFull.Resume(t);
      if !(|items| < capacity || closed) {
        if expired {
          return Rejected, w;
        }
        notFull := notFull.Sleep(t);
        return PushBlocked, w;
      }
      if closed {
        return Rejected, w;
      }
      items, pushed := items + [item], pushed + [item];
      notEmpty := notEmpty.NotifyOne(w);
      outcome := Enqueued;
    }

    method TryPush(item: T) returns (outcome: PushOutcome, w: Tid)
      requires QueueInv(View())
      modifies this
      ensures QueueInv(View()) && old(View()).notEmpty.MayWake(w)
      ensures (View(), outcome) == TryPushPass(old(View()), item, w)
      ensures outcome == if !old(closed) && |old(items)| < capacity then Enqueued else Rejected
      ensures items == if outcome == Enqueued then old(items) + [item] else old(items)
    {
      hide QueueInv;
      w := Sleeper(notEmpty);
      TryPushPreserves(View(), item, w);
      if closed || |items| >= capacity {
        return Rejected, w;
      }
      items, pushed := items + [item], pushed + [item];
      notEmpty := notEmpty.NotifyOne(w);
      outcome := Enqueued;
    }

    method Pop(t: Tid, expired: bool) returns (outcome: PopOutcome<T>, w: Tid)
      requires QueueInv(View()) && t !in notEmpty.asleep
      modifies this
      ensures QueueInv(View()) && old(View()).notFull.MayWake(w)
      ensures (View(), outcome) == PopPass(old(View()), t, expired, w)
      ensures old(items) != [] ==> outcome == Item(old(items)[0]) && items == old(items)[1..]
      ensures old(items) == [] ==>
                items == [] && outcome == if hasError then Error else if closed then Closed
                                          else if expired then Timeout else PopBlocked
    {
      hide QueueInv;
      w := Sleeper(notFull);
      PopPreserves(View(), t, expired, w);
      notEmpty := notEmpty.Resume(t);
      if !(items != [] || closed || hasError) {
        if expired {
          return Timeout, w;
        }
        notEmpty := notEmpty.Sleep(t);
        return PopBlocked, w;
      }
      if hasError && items == [] {
        return Error, w;
      }
      if items == [] {
        return Closed, w;
      }
      outcome := Item(items[0]);
      items, popped := items[1..], popped + [items[0]];
      notFull := notFull.NotifyOne(w);
    }

    method Close()
      requires QueueInv(View())
      modifies this
      ensures QueueInv(View()) && View() == ClosePass(old(View()))
      ensures closed && items == old(items) && notEmpty.woken == old(notEmpty.woken + notEmpty.asleep)
      ensures notFull.woken == old(notFull.woken + notFull.asleep)
    {
      closed := true;
      notEmpty := notEmpty.NotifyAll();
      notFull := notFull.NotifyAll();
    }

    method CloseWithError(message: string)
      requires QueueInv(View())
      modifies this
      ensures QueueInv(View()) && View() == CloseWithErrorPass(old(View()), message)
      ensures closed && hasError && errorMessage == message && items == old(items)
      ensures notEmpty.woken == old(notEmpty.woken + notEmpty.asleep)
      ensures notFull.woken == old(notFull.woken + notFull.asleep)
    {
      closed := true;
      hasError := true;
      errorMessage := message;
      notEmpty := notEmpty.NotifyAll();
      notFull := notFull.NotifyAll();
    }
  }
}
