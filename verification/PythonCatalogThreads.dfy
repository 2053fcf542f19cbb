/**
  Concurrent look-ups in the Python catalog (sdk/python/src/catalog.py:54-140).

  Dictionary writes are single steps.  A refresh holds the lock from its fetch to
  its last write; get_model reads the alias dictionary without it.
*/
module PythonCatalogThreads {

  type Tid = nat

  /** Where a thread is in get_model(alias); `forced` marks the second, healing refresh. */
  datatype Pc =
    | Idle
    | Waiting(alias: string, forced: bool)
    | Fetching(alias: string, forced: bool)
    | Deleting(alias: string, forced: bool, listed: set<string>, stale: set<string>)
    | Adding(alias: string, forced: bool, todo: set<string>)
    | Reading(alias: string, forced: bool)
    | Returned(alias: string, found: bool)
    | Raised

  predicate HoldsLock(pc: Pc) { pc.Fetching? || pc.Deleting? || pc.Adding? }

  /** The keys of the alias dictionary, and the threads. */
  datatype State = State(present: set<string>, threads: map<Tid, Pc>)

  datatype Action =
    | Call(thread: Tid, alias: string)
    | Lock(thread: Tid, recent: bool)
    | FetchFails(thread: Tid)
    | Fetch(thread: Tid, listed: set<string>)
    | Delete(thread: Tid, key: string)
    | Write(thread: Tid, key: string)
    | Refuse(thread: Tid)
    | Go(thread: Tid)

  predicate Free(s: State) { forall t | t in s.threads :: !HoldsLock(s.threads[t]) }

  predicate Enabled(s: State, a: Action) {
    && a.thread in s.threads
    && var pc := s.threads[a.thread];
       match a
       case Call(_, _) => pc.Idle? || pc.Returned? || pc.Raised?
       case Lock(_, _) => pc.Waiting? && Free(s)
       case FetchFails(_) => pc.Fetching?
       case Fetch(_, _) => pc.Fetching?
       case Delete(_, key) => pc.Deleting? && key in pc.stale
       case Write(_, key) => pc.Adding? && key in pc.todo
       case Refuse(_) => pc.Adding?
       case Go(_) => (pc.Deleting? && pc.stale == {}) || (pc.Adding? && pc.todo == {}) || pc.Reading?
  }

  function Step(s: State, a: Action): State
    requires Enabled(s, a)
  {
    var t, pc := a.thread, s.threads[a.thread];
    match a
    case Call(_, alias) => s.(threads := s.threads[t := Waiting(alias, false)])
    case Lock(_, recent) =>
      var next := if recent && !pc.forced then Reading(pc.alias, false) else Fetching(pc.alias, pc.forced);
      s.(threads := s.threads[t := next])
    case FetchFails(_) => s.(threads := s.threads[t := Raised])
    case Fetch(_, listed) => s.(threads := s.threads[t := Deleting(pc.alias, pc.forced, listed, s.present - listed)])
    case Delete(_, key) => State(s.present - {key}, s.threads[t := pc.(stale := pc.stale - {key})])
    case Write(_, key) => State(s.present + {key}, s.threads[t := pc.(todo := pc.todo - {key})])
    case Refuse(_) => s.(threads := s.threads[t := Raised])
    case Go(_) =>
      if pc.Deleting? then s.(threads := s.threads[t := Adding(pc.alias, pc.forced, pc.listed)])
      else if pc.Adding? then s.(threads := s.threads[t := Reading(pc.alias, pc.forced)])
      else if pc.alias in s.present || pc.forced then
        s.(threads := s.threads[t := Returned(pc.alias, pc.alias in s.present)])
      else s.(threads := s.threads[t := Waiting(pc.alias, true)])
  }

  predicate Legal(s: State, run: seq<Action>)
    decreases |run|
  {
    run == [] || (Enabled(s, run[0]) && Legal(Step(s, run[0]), run[1..]))
  }

  function Run(s: State, run: seq<Action>): State
    requires Legal(s, run)
    decreases |run|
  {
    if run == [] then s else Run(Step(s, run[0]), run[1..])
  }

  ghost predicate OneRefresh(s: State) {
    forall t, u :: t in s.threads && u in s.threads && HoldsLock(s.threads[t]) && HoldsLock(s.threads[u]) ==> t == u
  }

  lemma StepKeepsOneRefresh(s: State, a: Action)
    requires OneRefresh(s) && Enabled(s, a)
    ensures OneRefresh(Step(s, a))
  {
  }

  /** What thread t, in a call for an alias, and the others know while the alias stays listed. */
  ghost predicate Tracked(s: State, t: Tid, alias: string) {
    && t in s.threads
    && match s.threads[t]
       case Waiting(a, _) => a == alias
       case Fetching(a, _) => a == alias
       case Deleting(a, forced, listed, stale) => a == alias && alias in listed && alias !in stale
       case Adding(a, forced, todo) => a == alias && (alias in s.present || alias in todo)
       case Reading(a, forced) => a == alias && (forced ==> alias in s.present && Spared(s, alias))
       case Returned(a, found) => a == alias && found
       case Raised => true
       case Idle => false
  }

  /** No refresh under way is going to delete the alias. */
  ghost predicate Spared(s: State, alias: string) {
    forall u :: u in s.threads && s.threads[u].Deleting? ==> alias !in s.threads[u].stale
  }

  /** The core lists the alias whenever it is asked. */
  predicate StaysListed(a: Action, alias: string) { a.Fetch? ==> alias in a.listed }

  lemma OthersKeepTracked(s: State, a: Action, t: Tid, alias: string)
    requires OneRefresh(s) && Tracked(s, t, alias) && Enabled(s, a) && StaysListed(a, alias) && a.thread != t
    ensures Tracked(Step(s, a), t, alias)
  {
    var next := Step(s, a);
    assert next.threads[t] == s.threads[t];
    if HoldsLock(s.threads[t]) {
      assert !HoldsLock(s.threads[a.thread]);
    }
  }

  lemma OwnStepKeepsTracked(s: State, a: Action, alias: string)
    requires OneRefresh(s) && Tracked(s, a.thread, alias) && Enabled(s, a) && StaysListed(a, alias) && !a.Call?
    ensures Tracked(Step(s, a), a.thread, alias)
  {
    var t, next := a.thread, Step(s, a);
    if a.Go? && s.threads[t].Adding? {
      forall u | u in s.threads && u != t
        ensures !HoldsLock(s.threads[u])
      {
      }
    }
  }

  /** A look-up answers what the dictionary holds at that moment, and gives up behind a forced refresh only. */
  lemma AnswerIsPresence(s: State, a: Action, t: Tid, alias: string, found: bool)
    requires Enabled(s, a) && t in s.threads && s.threads[t] != Returned(alias, found)
    requires Step(s, a).threads[t] == Returned(alias, found)
    ensures a == Go(t) && s.threads[t].Reading? && s.threads[t].alias == alias && found == (alias in s.present)
    ensures !found ==> s.threads[t].forced
  {
  }

  /** A call raises only when its fetch fails or an alias is refused. */
  lemma OnlyFailureRaises(s: State, a: Action, t: Tid)
    requires Enabled(s, a) && t in s.threads && !s.threads[t].Raised? && Step(s, a).threads[t].Raised?
    ensures a == FetchFails(t) || a == Refuse(t)
  {
  }

  /** The dictionary held the alias at some moment between call and answer. */
  ghost predicate SeenDuring(s: State, run: seq<Action>, alias: string)
    requires Legal(s, run)
    decreases |run|
  {
    alias in s.present || (run != [] && SeenDuring(Step(s, run[0]), run[1..], alias))
  }

  /** Thread t makes no further call in the run. */
  predicate NoNewCall(run: seq<Action>, t: Tid) { forall i | 0 <= i < |run| :: !(run[i].Call? && run[i].thread == t) }

  lemma ReturnedIsOver(s: State, a: Action, t: Tid)
    requires Enabled(s, a) && t in s.threads && s.threads[t].Returned? && !(a.Call? && a.thread == t)
    ensures t in Step(s, a).threads && Step(s, a).threads[t] == s.threads[t]
  {
  }

  lemma {:induction false} ReturnedStays(s: State, run: seq<Action>, t: Tid)
    requires Legal(s, run) && t in s.threads && s.threads[t].Returned? && NoNewCall(run, t)
    ensures t in Run(s, run).threads && Run(s, run).threads[t] == s.threads[t]
    decreases |run|
  {
    if run != [] {
      ReturnedIsOver(s, run[0], t);
      hide Enabled, Step;
      ReturnedStays(Step(s, run[0]), run[1..], t);
    }
  }

  lemma StaysInCall(s: State, a: Action, t: Tid)
    requires Enabled(s, a) && t in s.threads
    ensures t in Step(s, a).threads
  {
  }

  /** A call that finds an alias has seen it: no answer is made up. */
  lemma {:induction false} FoundWasPresent(s: State, run: seq<Action>, t: Tid, alias: string)
    requires Legal(s, run) && t in s.threads && !s.threads[t].Returned? && NoNewCall(run, t)
    requires t in Run(s, run).threads && Run(s, run).threads[t] == Returned(alias, true)
    ensures SeenDuring(s, run, alias)
    decreases |run|
  {
    if run != [] {
      var next := Step(s, run[0]);
      StaysInCall(s, run[0], t);
      if next.threads[t].Returned? {
        ReturnedStays(next, run[1..], t);
        AnswerIsPresence(s, run[0], t, alias, true);
      } else {
        hide Enabled, Step;
        FoundWasPresent(next, run[1..], t, alias);
      }
    }
  }

  predicate ListedThroughout(run: seq<Action>, alias: string) {
    forall i | 0 <= i < |run| :: StaysListed(run[i], alias)
  }

  lemma {:induction false} RunKeepsTracked(s: State, run: seq<Action>, t: Tid, alias: string)
    requires OneRefresh(s) && Tracked(s, t, alias) && Legal(s, run) && NoNewCall(run, t) && ListedThroughout(run, alias)
    ensures OneRefresh(Run(s, run)) && Tracked(Run(s, run), t, alias)
    decreases |run|
  {
    hide OneRefresh, Tracked, Enabled, Step, StaysListed;
    if run != [] {
      StepKeepsOneRefresh(s, run[0]);
      if run[0].thread == t {
        OwnStepKeepsTracked(s, run[0], alias);
      } else {
        OthersKeepTracked(s, run[0], t, alias);
      }
      RunKeepsTracked(Step(s, run[0]), run[1..], t, alias);
    }
  }

  /**
    An alias that the core lists throughout a call is found by the call, unless the
    call raises, whatever the other threads refresh meanwhile.
  */
  lemma ListedAliasIsFound(s: State, t: Tid, alias: string, run: seq<Action>)
    requires OneRefresh(s) && Enabled(s, Call(t, alias))
    requires Legal(Step(s, Call(t, alias)), run) && NoNewCall(run, t) && ListedThroughout(run, alias)
    ensures var end := Run(Step(s, Call(t, alias)), run);
            t in end.threads && (end.threads[t].Returned? ==> end.threads[t] == Returned(alias, true))
  {
    var called := Step(s, Call(t, alias));
    StepKeepsOneRefresh(s, Call(t, alias));
    RunKeepsTracked(called, run, t, alias);
  }
}
