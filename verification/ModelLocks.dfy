/**
  The mutexes of a container and its leaves (sdk_v2/cpp/src/model.h:253-262).

  A program is the lock operations of one call, with a branch wherever the code
  decides on data.  Programs that keep the documented order never deadlock, in any
  number of threads, and every operation keeps it.
*/
module ModelLocks {

  type LeafId = nat

  datatype Mutex =
    | ContainerLifecycle
    | LeafLifecycle(leaf: LeafId)
    | ContainerState
    | IncomingState(incoming: nat)
    | LeafState(owner: LeafId)

  function Rank(m: Mutex): nat {
    match m
    case ContainerLifecycle => 0
    case LeafLifecycle(_) => 1
    case ContainerState => 2
    case IncomingState(_) => 3
    case LeafState(_) => 4
  }

  datatype Program =
    | Return
    | Lock(mutex: Mutex, rest: Program)
    | Unlock(mutex: Mutex, rest: Program)
    | TryLock(mutex: Mutex, locked: Program, refused: Program)
    | Decide(first: Program, second: Program)

  /**
    What may be waited for: a mutex above everything held, or one more leaf's
    lifecycle mutex under the container's lifecycle mutex.
  */
  predicate MayTake(m: Mutex, held: set<Mutex>) {
    || (forall h | h in held :: Rank(h) < Rank(m))
    || (m.LeafLifecycle? && m !in held && ContainerLifecycle in held && forall h | h in held :: Rank(h) <= Rank(m))
  }

  predicate WellOrdered(p: Program, held: set<Mutex>) {
    match p
    case Return => held == {}
    case Lock(m, rest) => MayTake(m, held) && WellOrdered(rest, held + {m})
    case Unlock(m, rest) => m in held && WellOrdered(rest, held - {m})
    case TryLock(m, locked, refused) => m !in held && WellOrdered(locked, held + {m}) && WellOrdered(refused, held)
    case Decide(first, second) => WellOrdered(first, held) && WellOrdered(second, held)
  }

  // ---------------------------------------------------------------------
  // Threads
  // ---------------------------------------------------------------------

  datatype Thread = Thread(program: Program, held: set<Mutex>)

  type State = seq<Thread>

  predicate Free(s: State, m: Mutex) { forall i | 0 <= i < |s| :: m !in s[i].held }

  /** A thread is stuck only in front of a mutex that somebody holds. */
  predicate CanStep(s: State, i: nat)
    requires i < |s|
  {
    match s[i].program
    case Return => false
    case Lock(m, _) => Free(s, m)
    case _ => true
  }

  /** Thread i goes on; `branch` settles try_lock and decisions. */
  datatype Move = Move(thread: nat, branch: bool)

  predicate Enabled(s: State, move: Move) {
    && move.thread < |s|
    && CanStep(s, move.thread)
    && var p := s[move.thread].program;
       (p.TryLock? && move.branch ==> Free(s, p.mutex))
  }

  function Advance(t: Thread, branch: bool): Thread {
    match t.program
    case Return => t
    case Lock(m, rest) => Thread(rest, t.held + {m})
    case Unlock(m, rest) => Thread(rest, t.held - {m})
    case TryLock(m, locked, refused) => if branch then Thread(locked, t.held + {m}) else Thread(refused, t.held)
    case Decide(first, second) => Thread(if branch then first else second, t.held)
  }

  function Step(s: State, move: Move): State
    requires Enabled(s, move)
  {
    s[move.thread := Advance(s[move.thread], move.branch)]
  }

  predicate Legal(s: State, run: seq<Move>)
    decreases |run|
  {
    run == [] || (Enabled(s, run[0]) && Legal(Step(s, run[0]), run[1..]))
  }

  function Run(s: State, run: seq<Move>): State
    requires Legal(s, run)
    decreases |run|
  {
    if run == [] then s else Run(Step(s, run[0]), run[1..])
  }

  function Start(programs: seq<Program>): State
  {
    seq(|programs|, i requires 0 <= i < |programs| => Thread(programs[i], {}))
  }

  // ---------------------------------------------------------------------
  // No deadlock
  // ---------------------------------------------------------------------

  ghost predicate Ordered(s: State) { forall i :: 0 <= i < |s| ==> WellOrdered(s[i].program, s[i].held) }

  ghost predicate Exclusive(s: State) {
    forall i, j, m :: 0 <= i < |s| && 0 <= j < |s| && m in s[i].held && m in s[j].held ==> i == j
  }

  lemma AdvanceKeepsOrder(t: Thread, branch: bool)
    requires WellOrdered(t.program, t.held)
    ensures WellOrdered(Advance(t, branch).program, Advance(t, branch).held)
  {
    hide MayTake;
  }

  lemma StepKeepsOrder(s: State, move: Move)
    requires Ordered(s) && Enabled(s, move)
    ensures Ordered(Step(s, move))
  {
    AdvanceKeepsOrder(s[move.thread], move.branch);
    hide WellOrdered, Advance;
  }

  lemma OnlyFreeMutexesAreTaken(s: State, move: Move, m: Mutex)
    requires Enabled(s, move) && m in Advance(s[move.thread], move.branch).held
    ensures m in s[move.thread].held || Free(s, m)
  {
  }

  lemma StepKeepsExclusion(s: State, move: Move)
    requires Exclusive(s) && Enabled(s, move)
    ensures Exclusive(Step(s, move))
  {
    var t := Step(s, move);
    forall i, j, m | 0 <= i < |t| && 0 <= j < |t| && m in t[i].held && m in t[j].held
      ensures i == j
    {
      if i == move.thread || j == move.thread { OnlyFreeMutexesAreTaken(s, move, m); }
      hide Advance;
    }
  }

  /** How far up the order a waiting thread is. */
  function Height(t: Thread): nat
    requires t.program.Lock?
  {
    match t.program.mutex
    case ContainerLifecycle => 0
    case LeafLifecycle(_) => if ContainerLifecycle in t.held then 2 else 1
    case ContainerState => 3
    case IncomingState(_) => 4
    case LeafState(_) => 5
  }

  lemma WaitsHigher(t: Thread, u: Thread)
    requires t.program.Lock? && u.program.Lock? && t.program.mutex in u.held
    requires MayTake(t.program.mutex, t.held) && MayTake(u.program.mutex, u.held)
    requires !(ContainerLifecycle in t.held && ContainerLifecycle in u.held)
    ensures Height(u) > Height(t)
  {
  }

  /** From a waiting thread, follow the owners up to one that can go on. */
  lemma {:induction false} SomebodyCanStep(s: State, i: nat) returns (k: nat)
    requires Ordered(s) && Exclusive(s) && i < |s| && s[i].program != Return
    ensures k < |s| && CanStep(s, k)
    decreases if s[i].program.Lock? then 6 - Height(s[i]) else 0
  {
    if CanStep(s, i) {
      return i;
    }
    var m := s[i].program.mutex;
    var owner :| 0 <= owner < |s| && m in s[owner].held;
    OwnerWaitsHigher(s, i, owner);
    if CanStep(s, owner) {
      return owner;
    }
    hide WellOrdered, Exclusive, Free;
    k := SomebodyCanStep(s, owner);
  }

  lemma OwnerWaitsHigher(s: State, i: nat, owner: nat)
    requires Ordered(s) && Exclusive(s) && i < |s| && owner < |s|
    requires s[i].program.Lock? && s[i].program.mutex in s[owner].held
    ensures s[owner].program != Return
    ensures s[owner].program.Lock? ==> Height(s[owner]) > Height(s[i])
  {
    assert WellOrdered(s[i].program, s[i].held) && WellOrdered(s[owner].program, s[owner].held);
    if s[owner].program.Lock? {
      assert i != owner by {
        if i == owner { NotTakenTwice(s[i]); }
      }
      WaitsHigher(s[i], s[owner]);
    }
  }

  lemma NotTakenTwice(t: Thread)
    requires t.program.Lock? && MayTake(t.program.mutex, t.held)
    ensures t.program.mutex !in t.held
  {
  }

  function Size(p: Program): nat {
    match p
    case Return => 0
    case Lock(_, rest) => 1 + Size(rest)
    case Unlock(_, rest) => 1 + Size(rest)
    case TryLock(_, a, b) => 1 + Size(a) + Size(b)
    case Decide(a, b) => 1 + Size(a) + Size(b)
  }

  function Work(s: State): nat {
    if s == [] then 0 else Size(s[0].program) + Work(s[1..])
  }

  lemma {:induction false} WorkDecreases(s: State, i: nat, t: Thread)
    requires i < |s| && Size(t.program) < Size(s[i].program)
    ensures Work(s[i := t]) < Work(s)
  {
    hide Size;
    if i == 0 {
      assert s[i := t][1..] == s[1..];
    } else {
      WorkDecreases(s[1..], i - 1, t);
      assert s[i := t][1..] == s[1..][i - 1 := t];
    }
  }

  lemma {:induction false} RunKeepsOrder(s: State, run: seq<Move>)
    requires Ordered(s) && Exclusive(s) && Legal(s, run)
    ensures Ordered(Run(s, run)) && Exclusive(Run(s, run)) && |run| + Work(Run(s, run)) <= Work(s)
    decreases |run|
  {
    if run != [] {
      StepKeepsOrder(s, run[0]);
      StepKeepsExclusion(s, run[0]);
      AdvanceShrinks(s, run[0]);
      hide Ordered, Exclusive, Enabled, Step;
      RunKeepsOrder(Step(s, run[0]), run[1..]);
    }
  }

  lemma AdvanceShrinks(s: State, move: Move)
    requires Enabled(s, move)
    ensures Work(Step(s, move)) < Work(s)
  {
    var t := Advance(s[move.thread], move.branch);
    assert Size(t.program) < Size(s[move.thread].program);
    hide Size, Advance;
    WorkDecreases(s, move.thread, t);
  }

  lemma StartIsOrdered(programs: seq<Program>)
    requires forall i :: 0 <= i < |programs| ==> WellOrdered(programs[i], {})
    ensures Ordered(Start(programs)) && Exclusive(Start(programs))
  {
    hide WellOrdered;
  }

  /** Threads that run well-ordered programs never deadlock. */
  lemma NoDeadlock(programs: seq<Program>, run: seq<Move>)
    requires forall i :: 0 <= i < |programs| ==> WellOrdered(programs[i], {})
    requires Legal(Start(programs), run)
    ensures var s := Run(Start(programs), run);
            (exists k :: 0 <= k < |s| && CanStep(s, k)) || (forall i :: 0 <= i < |s| ==> s[i] == Thread(Return, {}))
  {
    StartIsOrdered(programs);
    RunKeepsOrder(Start(programs), run);
    hide Legal, Run, CanStep;
    var s := Run(Start(programs), run);
    if i :| 0 <= i < |s| && s[i].program != Return {
      var k := SomebodyCanStep(s, i);
    } else {
      forall i | 0 <= i < |s|
        ensures s[i] == Thread(Return, {})
      {
        assert WellOrdered(s[i].program, s[i].held);
      }
    }
  }

  /** Every run ends within a bound fixed at the start, with every call returned and every mutex free. */
  lemma EveryCallReturns(programs: seq<Program>, run: seq<Move>)
    requires forall i :: 0 <= i < |programs| ==> WellOrdered(programs[i], {})
    requires Legal(Start(programs), run)
    ensures |run| <= Work(Start(programs))
    ensures var s := Run(Start(programs), run);
            (forall k :: 0 <= k < |s| ==> !CanStep(s, k)) ==> forall i :: 0 <= i < |s| ==> s[i] == Thread(Return, {})
  {
    StartIsOrdered(programs);
    RunKeepsOrder(Start(programs), run);
    NoDeadlock(programs, run);
  }
}
