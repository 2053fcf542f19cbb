/**
  The download counter of a leaf (sdk_v2/cpp/src/model.cc:570-620, 674-726, 802-836).

  One step is one critical section of the state mutex, one atomic store or one call
  of the download manager.  The lifecycle mutex is held from step to step.
*/
module Downloads {

  type Tid = nat

  datatype Pc =
    | Idle
    | DownloadStart | DownloadFetch | DownloadPublish(found: string) | DownloadMark | DownloadLeave
    | RemoveHeld | RemoveChecked | RemoveClear
    | UpdateHeld(told: string) | UpdateChecked(told: string)
    | ForgetHeld
    | RefreshHeld
    | Release

  /** Between the counter's increment and its decrement. */
  predicate InWindow(pc: Pc) {
    pc.DownloadStart? || pc.DownloadFetch? || pc.DownloadPublish? || pc.DownloadMark? || pc.DownloadLeave?
  }

  /** Owning the lifecycle mutex. */
  predicate Holds(pc: Pc) {
    !pc.Idle? && !InWindow(pc)
  }

  datatype State = State(
    path: string,
    cached: bool,
    active: bool,
    external: bool,
    counter: int,
    threads: map<Tid, Pc>)

  datatype Request = Download | RemoveFromCache | UpdateCachedState(path: string) | ForgetCachedState |
      RefreshCachedState

  /**
    What happens next: a thread enters a call, a thread goes on, or somebody
    deactivates the leaf.  `ok` and `answer` are what load manager, download
    manager and try_lock say.
  */
  datatype Action =
    | Enter(thread: Tid, request: Request, ok: bool)
    | Go(thread: Tid, ok: bool, answer: string)
    | Deactivate

  predicate Free(s: State) { forall t | t in s.threads :: !Holds(s.threads[t]) }

  predicate Enabled(s: State, a: Action) {
    match a
    case Enter(t, request, ok) =>
      && t in s.threads && s.threads[t] == Idle
      && (match request {
            case RemoveFromCache => s.external || Free(s)
            case UpdateCachedState(_) => ok ==> Free(s)
            case _ => Free(s)
          })
    case Go(t, ok, answer) => t in s.threads && s.threads[t] != Idle
    case Deactivate => true
  }

  function At(s: State, t: Tid, pc: Pc): State { s.(threads := s.threads[t := pc]) }

  function EnterStep(s: State, t: Tid, request: Request, ok: bool): State {
    match request
    case Download => if s.active then At(s, t, DownloadStart).(counter := s.counter + 1) else s
    case RemoveFromCache => if s.external then s else At(s, t, RemoveHeld)
    case UpdateCachedState(path) => if ok then At(s, t, UpdateHeld(path)) else s
    case ForgetCachedState => At(s, t, ForgetHeld)
    case RefreshCachedState => At(s, t, RefreshHeld)
  }

  function GoStep(s: State, t: Tid, ok: bool, answer: string): State
    requires t in s.threads
  {
    match s.threads[t]
    case Idle => s
    case DownloadStart => At(s, t, if s.external || (s.cached && s.path != "") then DownloadLeave else DownloadFetch)
    case DownloadFetch => At(s, t, if ok then DownloadPublish(answer) else DownloadLeave)
    case DownloadPublish(found) => At(s, t, DownloadMark).(path := found)
    case DownloadMark => At(s, t, DownloadLeave).(cached := true)
    case DownloadLeave => At(s, t, Idle).(counter := s.counter - 1)
    case RemoveHeld => At(s, t, if s.active && s.counter == 0 && ok then RemoveChecked else Release)
    case RemoveChecked => At(s, t, RemoveClear).(cached := false)
    case RemoveClear => At(s, t, Release).(path := "")
    case UpdateHeld(told) =>
      At(s, t, if s.active && !s.external && s.counter == 0 && ok then UpdateChecked(told) else Release)
    case UpdateChecked(told) =>
      if s.path == told then At(s, t, Release) else At(s, t, Release).(path := told, cached := told != "")
    case ForgetHeld =>
      if s.external then At(s, t, Release) else At(s, t, Release).(cached := false, path := "")
    case RefreshHeld =>
      if !s.active || s.external || s.cached || answer == "" then At(s, t, Release)
      else At(s, t, Release).(path := answer, cached := true)
    case Release => At(s, t, Idle)
  }

  function Step(s: State, a: Action): State
    requires Enabled(s, a)
  {
    match a
    case Enter(t, request, ok) => EnterStep(s, t, request, ok)
    case Go(t, ok, answer) => GoStep(s, t, ok, answer)
    case Deactivate => s.(active := false)
  }

  predicate Legal(s: State, run: seq<Action>)
    decreases |run|
  {
    run == [] || (Enabled(s, run[0]) && Legal(Step(s, run[0]), run[1..]))
  }

  function Run(s: State, run: seq<Action>): State
    requires Legal(s, run)
    decreases |run|
  {
    if run == [] then s else Run(Step(s, run[0]), run[1..])
  }

  /** A new leaf, cached if it has a path, and its threads. */
  function NewLeaf(path: string, external: bool, threads: set<Tid>): State {
    State(path, path != "", true, external, 0, map t | t in threads :: Idle)
  }

  // ---------------------------------------------------------------------
  // The counter
  // ---------------------------------------------------------------------

  ghost function Window(threads: map<Tid, Pc>): set<Tid> { set t | t in threads && InWindow(threads[t]) }

  /** The counter counts the threads in the window, and one thread at most owns the lifecycle mutex. */
  ghost predicate CounterInv(s: State) {
    && s.counter == |Window(s.threads)|
    && forall t, u :: t in s.threads && u in s.threads && Holds(s.threads[t]) && Holds(s.threads[u]) ==> t == u
  }

  /** Past its check, a call that owns the mutex has the window to itself. */
  predicate Checked(pc: Pc) { pc.RemoveChecked? || pc.RemoveClear? || pc.UpdateChecked? }

  ghost predicate CheckedInv(s: State) {
    forall t :: t in s.threads && Checked(s.threads[t]) ==> s.counter == 0
  }

  lemma WindowMoves(threads: map<Tid, Pc>, t: Tid, pc: Pc)
    requires t in threads
    ensures Window(threads[t := pc]) == if InWindow(pc) then Window(threads) + {t} else Window(threads) - {t}
  {
  }

  lemma Joins(s: set<Tid>, t: Tid)
    ensures |s + {t}| == |s| + if t in s then 0 else 1
  {
    if t in s { assert s + {t} == s; }
  }

  lemma Leaves(s: set<Tid>, t: Tid)
    ensures |s - {t}| == |s| - if t in s then 1 else 0
  {
    if t !in s { assert s - {t} == s; }
  }

  lemma WindowCount(threads: map<Tid, Pc>, t: Tid, pc: Pc)
    requires t in threads
    ensures |Window(threads[t := pc])| ==
            |Window(threads)| + (if InWindow(pc) then 1 else 0) - (if InWindow(threads[t]) then 1 else 0)
  {
    WindowMoves(threads, t, pc);
    Joins(Window(threads), t);
    Leaves(Window(threads), t);
  }

  ghost predicate OneHolder(threads: map<Tid, Pc>) {
    forall t, u :: t in threads && u in threads && Holds(threads[t]) && Holds(threads[u]) ==> t == u
  }

  lemma HolderMoves(threads: map<Tid, Pc>, t: Tid, pc: Pc)
    requires t in threads && OneHolder(threads)
    requires Holds(pc) ==> Holds(threads[t]) || forall u :: u in threads ==> !Holds(threads[u])
    ensures OneHolder(threads[t := pc])
  {
  }

  lemma EnterKeepsCounter(s: State, t: Tid, request: Request, ok: bool)
    requires CounterInv(s) && Enabled(s, Enter(t, request, ok))
    ensures CounterInv(EnterStep(s, t, request, ok))
  {
    var next := EnterStep(s, t, request, ok);
    var pc := next.threads[t];
    WindowCount(s.threads, t, pc);
    HolderMoves(s.threads, t, pc);
    hide Window;
    assert s.threads[t := s.threads[t]] == s.threads;
  }

  /** A step moves its own thread only, and only the last step of a download leaves the window. */
  lemma GoMoves(s: State, t: Tid, ok: bool, answer: string) returns (pc: Pc)
    requires t in s.threads && s.threads[t] != Idle
    ensures GoStep(s, t, ok, answer).threads == s.threads[t := pc]
    ensures GoStep(s, t, ok, answer).counter == s.counter - if s.threads[t].DownloadLeave? then 1 else 0
    ensures InWindow(pc) == (InWindow(s.threads[t]) && !s.threads[t].DownloadLeave?)
    ensures Holds(pc) ==> Holds(s.threads[t])
  {
    pc := GoStep(s, t, ok, answer).threads[t];
  }

  lemma GoKeepsCounter(s: State, t: Tid, ok: bool, answer: string)
    requires CounterInv(s) && t in s.threads && s.threads[t] != Idle
    ensures CounterInv(GoStep(s, t, ok, answer))
  {
    var pc := GoMoves(s, t, ok, answer);
    WindowCount(s.threads, t, pc);
    HolderMoves(s.threads, t, pc);
    hide Window, GoStep, Holds;
  }

  lemma EnterKeepsChecked(s: State, t: Tid, request: Request, ok: bool)
    requires CheckedInv(s) && Enabled(s, Enter(t, request, ok))
    ensures CheckedInv(EnterStep(s, t, request, ok))
  {
    forall u | u in s.threads && Checked(s.threads[u])
      ensures Holds(s.threads[u])
    {
    }
  }

  lemma NobodyInWindow(s: State, t: Tid)
    requires CounterInv(s) && t in s.threads && InWindow(s.threads[t])
    ensures s.counter != 0
  {
    assert t in Window(s.threads);
  }

  lemma GoKeepsChecked(s: State, t: Tid, ok: bool, answer: string)
    requires CounterInv(s) && CheckedInv(s) && t in s.threads && s.threads[t] != Idle
    ensures CheckedInv(GoStep(s, t, ok, answer))
  {
    if InWindow(s.threads[t]) { NobodyInWindow(s, t); }
    hide CounterInv;
  }

  ghost predicate Inv(s: State) { CounterInv(s) && CheckedInv(s) }

  lemma StepKeepsInv(s: State, a: Action)
    requires Inv(s) && Enabled(s, a)
    ensures Inv(Step(s, a))
  {
    hide CounterInv, CheckedInv, EnterStep, GoStep, Enabled;
    match a
    case Enter(t, request, ok) =>
      EnterKeepsCounter(s, t, request, ok);
      EnterKeepsChecked(s, t, request, ok);
    case Go(t, ok, answer) =>
      GoMayGo(s, t, ok, answer);
      GoKeepsCounter(s, t, ok, answer);
      GoKeepsChecked(s, t, ok, answer);
    case Deactivate => DeactivateKeeps(s);
  }

  lemma GoMayGo(s: State, t: Tid, ok: bool, answer: string)
    requires Enabled(s, Go(t, ok, answer))
    ensures t in s.threads && s.threads[t] != Idle
  {
  }

  lemma DeactivateKeeps(s: State)
    requires Inv(s)
    ensures Inv(s.(active := false))
  {
  }

  lemma NewLeafInv(path: string, external: bool, threads: set<Tid>)
    ensures Inv(NewLeaf(path, external, threads))
  {
    assert Window(NewLeaf(path, external, threads).threads) == {};
  }

  lemma {:induction false} RunKeepsInv(s: State, run: seq<Action>)
    requires Inv(s) && Legal(s, run)
    ensures Inv(Run(s, run))
    decreases |run|
  {
    hide Inv, Step, Enabled;
    if run != [] {
      StepKeepsInv(s, run[0]);
      RunKeepsInv(Step(s, run[0]), run[1..]);
    }
  }

  /** In every run the counter is the number of threads inside a download. */
  lemma CounterIsWindow(path: string, external: bool, threads: set<Tid>, run: seq<Action>)
    requires Legal(NewLeaf(path, external, threads), run)
    ensures var s := Run(NewLeaf(path, external, threads), run);
            && s.counter == |Window(s.threads)|
            && (s.counter == 0 <==> forall t :: t in s.threads ==> !InWindow(s.threads[t]))
  {
    NewLeafInv(path, external, threads);
    RunKeepsInv(NewLeaf(path, external, threads), run);
    hide Run, Legal, NewLeaf;
    var s := Run(NewLeaf(path, external, threads), run);
    forall t | t in s.threads && InWindow(s.threads[t])
      ensures s.counter != 0
    {
      NobodyInWindow(s, t);
    }
    if s.counter != 0 {
      assert Window(s.threads) != {};
      var t :| t in Window(s.threads);
    }
  }

  /** A step of RemoveFromCache or UpdateCachedState. */
  predicate RemovesOrUpdates(pc: Pc) {
    pc.RemoveHeld? || pc.RemoveChecked? || pc.RemoveClear? || pc.UpdateHeld? || pc.UpdateChecked?
  }

  /** While a download is under way, removing and updating leave path and mark alone. */
  lemma DownloadsAreLeftAlone(path: string, external: bool, threads: set<Tid>, run: seq<Action>, t: Tid, ok: bool,
      answer: string)
    requires Legal(NewLeaf(path, external, threads), run)
    ensures var s := Run(NewLeaf(path, external, threads), run);
            t in s.threads && RemovesOrUpdates(s.threads[t]) && s.counter != 0 ==>
              GoStep(s, t, ok, answer).path == s.path && GoStep(s, t, ok, answer).cached == s.cached
  {
    NewLeafInv(path, external, threads);
    RunKeepsInv(NewLeaf(path, external, threads), run);
    hide Run, Legal, NewLeaf, CounterInv;
  }

  // ---------------------------------------------------------------------
  // Path and mark
  // ---------------------------------------------------------------------

  /** Nobody is between two stores that belong together. */
  predicate Between(pc: Pc) { pc.DownloadMark? || pc.RemoveClear? }

  ghost predicate Settled(s: State) { forall t :: t in s.threads ==> !Between(s.threads[t]) }

  ghost predicate Consistent(s: State) { s.cached == (s.path != "") }

  /** Downloads find a path, and nobody forgets the path in the middle of a publication. */
  ghost predicate Orderly(s: State, a: Action)
    requires Enabled(s, a)
  {
    match a
    case Go(t, ok, answer) =>
      && (s.threads[t].DownloadFetch? && ok ==> answer != "")
      && (s.threads[t].ForgetHeld? && !s.external ==> forall u :: u in s.threads ==> !s.threads[u].DownloadMark?)
    case _ => true
  }

  ghost predicate OrderlyRun(s: State, run: seq<Action>)
    requires Legal(s, run)
    decreases |run|
  {
    run == [] || (Orderly(s, run[0]) && OrderlyRun(Step(s, run[0]), run[1..]))
  }

  ghost predicate PathInv(s: State) {
    && (Settled(s) ==> Consistent(s))
    && (forall t :: t in s.threads && s.threads[t].DownloadMark? ==> s.path != "")
    && (forall t :: t in s.threads && s.threads[t].RemoveClear? ==> !s.cached)
    && (forall t :: t in s.threads && s.threads[t].DownloadPublish? ==> s.threads[t].found != "")
    && (s.path == "" ==> !s.cached)
  }

  /** A thread past its check shares the window with nobody. */
  lemma CheckedIsAlone(s: State, t: Tid, u: Tid)
    requires Inv(s) && t in s.threads && u in s.threads && Checked(s.threads[t])
    ensures !InWindow(s.threads[u])
  {
    if InWindow(s.threads[u]) { NobodyInWindow(s, u); }
  }

  lemma HolderIsAlone(s: State, t: Tid, u: Tid)
    requires Inv(s) && t in s.threads && u in s.threads && Holds(s.threads[t]) && u != t
    ensures !Checked(s.threads[u])
  {
  }

  lemma StaysSettled(s: State, next: State, t: Tid, pc: Pc)
    requires t in s.threads && next.threads == s.threads[t := pc] && Settled(next) && !Between(s.threads[t])
    ensures Settled(s)
  {
    forall u | u in s.threads
      ensures !Between(s.threads[u])
    {
      assert u == t || next.threads[u] == s.threads[u];
    }
  }

  /** A download's step, while nobody is past a check. */
  lemma DownloadKeepsPath(s: State, t: Tid, ok: bool, answer: string)
    requires PathInv(s) && t in s.threads && InWindow(s.threads[t]) && Orderly(s, Go(t, ok, answer))
    requires forall u :: u in s.threads && u != t ==> !Checked(s.threads[u])
    ensures PathInv(GoStep(s, t, ok, answer))
  {
    var next := GoStep(s, t, ok, answer);
    assert next.threads == s.threads[t := next.threads[t]];
    if Settled(next) && !Between(s.threads[t]) { StaysSettled(s, next, t, next.threads[t]); }
  }

  /** A step that removes or updates, alone with the window. */
  lemma RemoveKeepsPath(s: State, t: Tid, ok: bool, answer: string)
    requires PathInv(s) && t in s.threads && RemovesOrUpdates(s.threads[t]) && Orderly(s, Go(t, ok, answer))
    requires forall u :: u in s.threads && Checked(s.threads[t]) ==> !InWindow(s.threads[u])
    requires forall u :: u in s.threads && u != t ==> !Checked(s.threads[u])
    ensures PathInv(GoStep(s, t, ok, answer))
  {
    var next := GoStep(s, t, ok, answer);
    assert next.threads == s.threads[t := next.threads[t]];
    if Settled(next) && !Between(s.threads[t]) { StaysSettled(s, next, t, next.threads[t]); }
  }

  lemma PublishKeepsPath(s: State, t: Tid, ok: bool, answer: string)
    requires PathInv(s) && t in s.threads && Holds(s.threads[t]) && !RemovesOrUpdates(s.threads[t])
    requires Orderly(s, Go(t, ok, answer))
    requires forall u :: u in s.threads && u != t ==> !Checked(s.threads[u])
    ensures PathInv(GoStep(s, t, ok, answer))
  {
    var next := GoStep(s, t, ok, answer);
    assert next.threads == s.threads[t := next.threads[t]];
    if Settled(next) && !Between(s.threads[t]) { StaysSettled(s, next, t, next.threads[t]); }
  }

  lemma GoKeepsPath(s: State, t: Tid, ok: bool, answer: string)
    requires Inv(s) && PathInv(s) && t in s.threads && s.threads[t] != Idle && Orderly(s, Go(t, ok, answer))
    ensures PathInv(GoStep(s, t, ok, answer))
  {
    hide PathInv, Orderly, GoStep;
    forall u | u in s.threads && Checked(s.threads[t])
      ensures !InWindow(s.threads[u])
    {
      CheckedIsAlone(s, t, u);
    }
    forall u | u in s.threads && u != t
      ensures !Checked(s.threads[u])
    {
      if Holds(s.threads[t]) { HolderIsAlone(s, t, u); }
      if Checked(s.threads[u]) { CheckedIsAlone(s, u, t); }
    }
    if InWindow(s.threads[t]) {
      DownloadKeepsPath(s, t, ok, answer);
    } else if RemovesOrUpdates(s.threads[t]) {
      RemoveKeepsPath(s, t, ok, answer);
    } else {
      PublishKeepsPath(s, t, ok, answer);
    }
  }

  lemma EnterKeepsPath(s: State, t: Tid, request: Request, ok: bool)
    requires PathInv(s) && Enabled(s, Enter(t, request, ok))
    ensures PathInv(EnterStep(s, t, request, ok))
  {
    var next := EnterStep(s, t, request, ok);
    assert s.threads[t := s.threads[t]] == s.threads;
    if Settled(next) { StaysSettled(s, next, t, next.threads[t]); }
  }

  lemma StepKeepsPath(s: State, a: Action)
    requires Inv(s) && PathInv(s) && Enabled(s, a) && Orderly(s, a)
    ensures PathInv(Step(s, a))
  {
    hide Inv, EnterStep, GoStep;
    match a
    case Enter(t, request, ok) => EnterKeepsPath(s, t, request, ok);
    case Go(t, ok, answer) => GoKeepsPath(s, t, ok, answer);
    case Deactivate =>
  }

  lemma {:induction false} RunKeepsPath(s: State, run: seq<Action>)
    requires Inv(s) && PathInv(s) && Legal(s, run) && OrderlyRun(s, run)
    ensures PathInv(Run(s, run))
    decreases |run|
  {
    hide Inv, PathInv, Step, Enabled, Orderly;
    if run != [] {
      StepKeepsInv(s, run[0]);
      StepKeepsPath(s, run[0]);
      RunKeepsPath(Step(s, run[0]), run[1..]);
    }
  }

  /** In orderly runs the leaf is marked cached exactly when it has a path, whenever nobody is between two stores. */
  lemma CachedMeansPath(path: string, external: bool, threads: set<Tid>, run: seq<Action>)
    requires Legal(NewLeaf(path, external, threads), run) && OrderlyRun(NewLeaf(path, external, threads), run)
    ensures var s := Run(NewLeaf(path, external, threads), run); Settled(s) ==> Consistent(s)
  {
    NewLeafInv(path, external, threads);
    RunKeepsPath(NewLeaf(path, external, threads), run);
  }

  lemma RunFrom(s: State, a: Action, next: State, rest: seq<Action>)
    requires Enabled(s, a) && Step(s, a) == next && Legal(next, rest)
    ensures Legal(s, [a] + rest) && Run(s, [a] + rest) == Run(next, rest)
  {
    assert ([a] + rest)[1..] == rest;
  }

  lemma OrderlyFrom(s: State, a: Action, rest: seq<Action>)
    requires Enabled(s, a) && Orderly(s, a) && Legal(Step(s, a), rest) && OrderlyRun(Step(s, a), rest)
    ensures Legal(s, [a] + rest) && OrderlyRun(s, [a] + rest)
  {
    assert ([a] + rest)[1..] == rest;
  }

  /** From here on, path and mark are in step whenever nobody is between two stores. */
  ghost predicate StaysConsistent(s: State) {
    forall run :: Legal(s, run) && OrderlyRun(s, run) && Settled(Run(s, run)) ==> Consistent(Run(s, run))
  }

  lemma PathInvLasts(s: State)
    requires Inv(s) && PathInv(s)
    ensures StaysConsistent(s)
  {
    hide Inv, Legal, OrderlyRun, Run;
    forall run | Legal(s, run) && OrderlyRun(s, run) && Settled(Run(s, run))
      ensures Consistent(Run(s, run))
    {
      RunKeepsPath(s, run);
    }
  }

  ghost function Markers(threads: map<Tid, Pc>): set<Tid> { set t | t in threads && threads[t].DownloadMark? }

  /** Without a path, the threads that are about to set the mark set it one after another. */
  lemma {:induction false} MarkersGo(s: State) returns (run: seq<Action>)
    requires s.path == "" && (s.cached || Markers(s.threads) != {})
    requires forall t :: t in s.threads ==> !s.threads[t].RemoveClear?
    ensures Legal(s, run) && OrderlyRun(s, run) && Settled(Run(s, run)) && !Consistent(Run(s, run))
    decreases Markers(s.threads)
  {
    if Markers(s.threads) == {} {
      run := [];
      forall t | t in s.threads
        ensures !Between(s.threads[t])
      {
        assert t !in Markers(s.threads);
      }
    } else {
      var t :| t in Markers(s.threads);
      var a, next := Go(t, true, ""), s.(threads := s.threads[t := DownloadLeave], cached := true);
      assert Enabled(s, a) && Step(s, a) == next && Orderly(s, a);
      assert Markers(next.threads) == Markers(s.threads) - {t};
      hide Legal, OrderlyRun, Run, Enabled, Step, Orderly, Markers;
      var rest := MarkersGo(next);
      run := [a] + rest;
      RunFrom(s, a, next, rest);
      OrderlyFrom(s, a, rest);
    }
  }

  lemma MarkersBreak(s: State)
    requires s.path == "" && Markers(s.threads) != {}
    requires forall t :: t in s.threads ==> !s.threads[t].RemoveClear?
    ensures !StaysConsistent(s)
  {
    var run := MarkersGo(s);
  }

  /** Next to a download nobody is removing. */
  lemma NobodyClears(s: State, t: Tid)
    requires Inv(s) && t in s.threads && InWindow(s.threads[t])
    ensures forall u :: u in s.threads ==> !s.threads[u].RemoveClear?
  {
    hide Inv;
    forall u | u in s.threads
      ensures !s.threads[u].RemoveClear?
    {
      if Checked(s.threads[u]) { CheckedIsAlone(s, u, t); }
    }
  }

  /** Forgetting the path leaves path and mark in step for good exactly if nobody is about to set the mark. */
  lemma ForgettingNeedsNoPublication(s: State, t: Tid)
    requires Inv(s) && PathInv(s) && t in s.threads && s.threads[t] == ForgetHeld
    ensures StaysConsistent(GoStep(s, t, true, "")) <==>
            s.external || forall u :: u in s.threads ==> !s.threads[u].DownloadMark?
  {
    var a, next := Go(t, true, ""), GoStep(s, t, true, "");
    if s.external || forall u :: u in s.threads ==> !s.threads[u].DownloadMark? {
      StepKeepsInv(s, a);
      GoKeepsPath(s, t, true, "");
      PathInvLasts(next);
    } else {
      var u :| u in s.threads && s.threads[u].DownloadMark?;
      NobodyClears(s, u);
      assert u in Markers(next.threads);
      hide Inv, PathInv, StaysConsistent;
      MarkersBreak(next);
    }
  }

  lemma PublishStaysConsistent(s: State, t: Tid)
    requires StaysConsistent(s) && t in s.threads && s.threads[t].DownloadPublish?
    ensures StaysConsistent(GoStep(s, t, true, ""))
  {
    var a, next := Go(t, true, ""), GoStep(s, t, true, "");
    assert Enabled(s, a) && Step(s, a) == next && Orderly(s, a);
    hide Legal, OrderlyRun, Run, Enabled, Step, Orderly, GoStep;
    forall run | Legal(next, run) && OrderlyRun(next, run) && Settled(Run(next, run))
      ensures Consistent(Run(next, run))
    {
      RunFrom(s, a, next, run);
      OrderlyFrom(s, a, run);
    }
  }

  /** So does a finished fetch exactly if it found a path. */
  lemma FetchingNeedsPath(s: State, t: Tid, answer: string)
    requires Inv(s) && PathInv(s) && t in s.threads && s.threads[t] == DownloadFetch
    ensures StaysConsistent(GoStep(s, t, true, answer)) <==> answer != ""
  {
    var a, fetched := Go(t, true, answer), GoStep(s, t, true, answer);
    StepKeepsInv(s, a);
    if answer != "" {
      GoKeepsPath(s, t, true, answer);
      PathInvLasts(fetched);
    } else {
      var published := GoStep(fetched, t, true, "");
      NobodyClears(s, t);
      assert t in Markers(published.threads);
      hide Inv, PathInv, StaysConsistent;
      MarkersBreak(published);
      if StaysConsistent(fetched) { PublishStaysConsistent(fetched, t); }
    }
  }

  const PUBLISHER: Tid := 0

  const FORGETTER: Tid := 1

  function Two(publisher: Pc, forgetter: Pc): map<Tid, Pc> { map[PUBLISHER := publisher, FORGETTER := forgetter] }

  lemma LegalNothing(s: State)
    ensures Legal(s, []) && Run(s, []) == s
  {
  }

  function Publishing(path: string, counter: int, publisher: Pc, forgetter: Pc, cached: bool): State {
    State(path, cached, true, false, counter, Two(publisher, forgetter))
  }

  lemma MarkAndLeave() returns (run: seq<Action>)
    ensures var s := Publishing("", 1, DownloadMark, Idle, false);
            Legal(s, run) && Run(s, run) == Publishing("", 0, Idle, Idle, true)
  {
    var s7 := Publishing("", 1, DownloadMark, Idle, false);
    var s8 := Publishing("", 1, DownloadLeave, Idle, true);
    var s9 := Publishing("", 0, Idle, Idle, true);
    hide Legal, Run;
    LegalNothing(s9);
    RunFrom(s8, Go(PUBLISHER, true, ""), s9, []);
    run := [Go(PUBLISHER, true, "")] + [];
    RunFrom(s7, Go(PUBLISHER, true, ""), s8, run);
    run := [Go(PUBLISHER, true, "")] + run;
  }

  /** The publisher has stored the path, the forgetter clears it, the publisher sets the mark. */
  lemma EndOfInterruption(found: string) returns (run: seq<Action>)
    ensures var s := Publishing(found, 1, DownloadMark, ForgetHeld, false);
            Legal(s, run) && Run(s, run) == Publishing("", 0, Idle, Idle, true)
  {
    var s5 := Publishing(found, 1, DownloadMark, ForgetHeld, false);
    var s6 := Publishing("", 1, DownloadMark, Release, false);
    var s7 := Publishing("", 1, DownloadMark, Idle, false);
    hide Legal, Run;
    run := MarkAndLeave();
    RunFrom(s6, Go(FORGETTER, true, ""), s7, run);
    run := [Go(FORGETTER, true, "")] + run;
    RunFrom(s5, Go(FORGETTER, true, ""), s6, run);
    run := [Go(FORGETTER, true, "")] + run;
  }

  lemma StartOfPublication(found: string, rest: seq<Action>) returns (run: seq<Action>)
    requires Legal(Publishing(found, 1, DownloadMark, Idle, false), rest)
    ensures var s := Publishing("", 0, Idle, Idle, false);
            Legal(s, run) && Run(s, run) == Run(Publishing(found, 1, DownloadMark, Idle, false), rest)
  {
    var s0 := Publishing("", 0, Idle, Idle, false);
    var s1 := Publishing("", 1, DownloadStart, Idle, false);
    var s2 := Publishing("", 1, DownloadFetch, Idle, false);
    var s3 := Publishing("", 1, DownloadPublish(found), Idle, false);
    var s4 := Publishing(found, 1, DownloadMark, Idle, false);
    hide Legal, Run;
    RunFrom(s3, Go(PUBLISHER, true, ""), s4, rest);
    run := [Go(PUBLISHER, true, "")] + rest;
    RunFrom(s2, Go(PUBLISHER, true, found), s3, run);
    run := [Go(PUBLISHER, true, found)] + run;
    RunFrom(s1, Go(PUBLISHER, true, ""), s2, run);
    run := [Go(PUBLISHER, true, "")] + run;
    RunFrom(s0, Enter(PUBLISHER, Download, true), s1, run);
    run := [Enter(PUBLISHER, Download, true)] + run;
  }

  /** From a new leaf: a publication interrupted by ForgetCachedState ends with a mark and no path. */
  lemma InterruptedPublication(found: string) returns (run: seq<Action>)
    ensures var leaf := NewLeaf("", false, {PUBLISHER, FORGETTER});
            Legal(leaf, run) && Settled(Run(leaf, run)) && !Consistent(Run(leaf, run))
  {
    assert NewLeaf("", false, {PUBLISHER, FORGETTER}).threads == Two(Idle, Idle);
    assert Settled(Publishing("", 0, Idle, Idle, true));
    var end := EndOfInterruption(found);
    hide Legal, Run;
    var s4, s5 := Publishing(found, 1, DownloadMark, Idle, false),
        Publishing(found, 1, DownloadMark, ForgetHeld, false);
    assert Enabled(s4, Enter(FORGETTER, ForgetCachedState, true));
    RunFrom(s4, Enter(FORGETTER, ForgetCachedState, true), s5, end);
    run := StartOfPublication(found, [Enter(FORGETTER, ForgetCachedState, true)] + end);
  }
}
