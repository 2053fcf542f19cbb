/**
  A leaf's cache fields and download counter, changed in place by Download,
  RemoveFromCache, UpdateCachedState, ForgetCachedState and RefreshCachedState
  (sdk_v2/cpp/src/model.cc:570-620, 674-726, 802-836).

  Between any two steps of a call other threads may take any number of steps of
  their own.  The history records all steps, so that everything proved about runs
  holds of the object at any time.
*/
module DownloadCode {
  import opened Downloads

  lemma {:induction false} Extends(s: State, run: seq<Action>, a: Action)
    requires Legal(s, run) && Enabled(Run(s, run), a)
    ensures Legal(s, run + [a]) && Run(s, run + [a]) == Step(Run(s, run), a)
    decreases |run|
  {
    hide Enabled, Step;
    if run == [] {
      assert [] + [a] == [a];
    } else {
      assert (run + [a])[0] == run[0] && (run + [a])[1..] == run[1..] + [a];
      Extends(Step(s, run[0]), run[1..], a);
    }
  }

  /** The state to which a history leads from a new leaf, and so within the invariant of all runs. */
  ghost predicate Reached(s: State, leaf: State, history: seq<Action>) {
    Inv(s) && Legal(leaf, history) && Run(leaf, history) == s
  }

  lemma StaysReached(s: State, leaf: State, history: seq<Action>, a: Action)
    requires Reached(s, leaf, history) && Enabled(s, a)
    ensures Reached(Step(s, a), leaf, history + [a])
  {
    hide Inv, Enabled, Step;
    StepKeepsInv(s, a);
    Extends(leaf, history, a);
  }

  // ---------------------------------------------------------------------
  // What a thread can rely on while the others run
  // ---------------------------------------------------------------------

  predicate By(a: Action, t: Tid) { !a.Deactivate? && a.thread == t }

  /**
    It stays where it is; and while it owns the lifecycle mutex with no download under
    way, nobody else touches counter, path or mark.
  */
  ghost predicate Rely(s: State, r: State, t: Tid) {
    && r.threads.Keys == s.threads.Keys && r.external == s.external && (r.active ==> s.active)
    && (t in s.threads ==> r.threads[t] == s.threads[t])
    && (t in s.threads && Holds(s.threads[t]) && s.counter == 0 ==>
          r.counter == 0 && r.path == s.path && r.cached == s.cached)
  }

  lemma RelyTrans(s: State, r: State, q: State, t: Tid)
    requires Rely(s, r, t) && Rely(r, q, t)
    ensures Rely(s, q, t)
  {
  }

  lemma EnterRely(s: State, u: Tid, request: Request, ok: bool, t: Tid)
    requires Enabled(s, Enter(u, request, ok)) && u != t
    ensures Rely(s, EnterStep(s, u, request, ok), t)
  {
  }

  lemma GoRely(s: State, u: Tid, ok: bool, answer: string, t: Tid)
    requires Inv(s) && Enabled(s, Go(u, ok, answer)) && u != t
    ensures Rely(s, GoStep(s, u, ok, answer), t)
  {
    if InWindow(s.threads[u]) {
      NobodyInWindow(s, u);
    }
    hide Window;
  }

  lemma StepRely(s: State, a: Action, t: Tid)
    requires Inv(s) && Enabled(s, a) && !By(a, t)
    ensures Rely(s, Step(s, a), t)
  {
    hide EnterStep, GoStep, Inv;
    match a
    case Enter(u, request, ok) =>
      EnterRely(s, u, request, ok, t);
    case Go(u, ok, answer) =>
      GoRely(s, u, ok, answer, t);
    case Deactivate =>
  }

  lemma InWindowCounts(s: State, leaf: State, history: seq<Action>)
    requires Reached(s, leaf, history)
    ensures s.counter == |Window(s.threads)|
  {
  }

  lemma ReachedInv(s: State, leaf: State, history: seq<Action>)
    requires Reached(s, leaf, history)
    ensures Inv(s)
  {
  }

  /** What Download does when nobody else does anything: counter and threads are as found. */
  function Downloaded(s: State, ok: bool, answer: string): State {
    if !s.active || s.external || (s.cached && s.path != "") || !ok then s else s.(path := answer, cached := true)
  }

  class CachedLeaf {
    const external: bool
    ghost const leaf: State
    var path: string
    var cached: bool
    var active: bool
    var counter: int
    var threads: map<Tid, Pc>
    ghost var history: seq<Action>

    ghost function View(): State
      reads this
    {
      State(path, cached, active, external, counter, threads)
    }

    ghost predicate Valid()
      reads this
    {
      Reached(View(), leaf, history)
    }

    twostate predicate Stepped(a: Action)
      reads this
    {
      Valid() && Enabled(old(View()), a) && View() == Step(old(View()), a) && history == old(history) + [a]
    }

    constructor (path: string, external: bool, callers: set<Tid>)
      ensures Valid() && View() == leaf == NewLeaf(path, external, callers) && history == []
    {
      this.path, this.external := path, external;
      cached, active, counter := path != "", true, 0;
      threads := map t | t in callers :: Idle;
      leaf, history := NewLeaf(path, external, callers), [];
      new;
      NewLeafInv(path, external, callers);
    }

    ghost method Record(before: State, a: Action)
      requires Reached(before, leaf, history) && Enabled(before, a) && View() == Step(before, a)
      modifies this`history
      ensures Valid() && history == old(history) + [a]
    {
      hide Reached, Enabled, Step;
      StaysReached(before, leaf, history, a);
      history := history + [a];
    }

    // -------------------------------------------------------------------
    // Steps
    // -------------------------------------------------------------------

    /** Entering a call; `ok` is the answer of try_lock in UpdateCachedState. */
    method EnterCall(t: Tid, request: Request, ok: bool) returns (entered: bool)
      requires Valid() && Enabled(View(), Enter(t, request, ok))
      modifies this
      ensures Stepped(Enter(t, request, ok)) && entered == (threads[t] != Idle)
    {
      hide Reached;
      ghost var before := View();
      match request {
        case Download =>
          if active {
            counter := counter + 1;
            threads := threads[t := DownloadStart];
          }
        case RemoveFromCache =>
          if !external {
            threads := threads[t := RemoveHeld];
          }
        case UpdateCachedState(told) =>
          if ok {
            threads := threads[t := UpdateHeld(told)];
          }
        case ForgetCachedState => threads := threads[t := ForgetHeld];
        case RefreshCachedState => threads := threads[t := RefreshHeld];
      }
      entered := threads[t] != Idle;
      Record(before, Enter(t, request, ok));
    }

    method LookWhetherCached(t: Tid)
      requires Valid() && t in threads && threads[t] == DownloadStart
      modifies this
      ensures Stepped(Go(t, true, ""))
    {
      hide Reached;
      ghost var before := View();
      var alreadyCached := cached && path != "";
      threads := threads[t := if external || alreadyCached then DownloadLeave else DownloadFetch];
      Record(before, Go(t, true, ""));
    }

    /** The download manager's answer; a failed or cancelled download leaves the window. */
    method Fetch(t: Tid, ok: bool, answer: string)
      requires Valid() && t in threads && threads[t] == DownloadFetch
      modifies this
      ensures Stepped(Go(t, ok, answer))
    {
      hide Reached;
      ghost var before := View();
      threads := threads[t := if ok then DownloadPublish(answer) else DownloadLeave];
      Record(before, Go(t, ok, answer));
    }

    method PublishPath(t: Tid)
      requires Valid() && t in threads && threads[t].DownloadPublish?
      modifies this
      ensures Stepped(Go(t, true, ""))
    {
      hide Reached;
      ghost var before := View();
      path := threads[t].found;
      threads := threads[t := DownloadMark];
      Record(before, Go(t, true, ""));
    }

    method SetMark(t: Tid)
      requires Valid() && t in threads && threads[t] == DownloadMark
      modifies this
      ensures Stepped(Go(t, true, ""))
    {
      hide Reached;
      ghost var before := View();
      cached := true;
      threads := threads[t := DownloadLeave];
      Record(before, Go(t, true, ""));
    }

    /** The guard's destructor, on every way out. */
    method LeaveWindow(t: Tid)
      requires Valid() && t in threads && threads[t] == DownloadLeave
      modifies this
      ensures Stepped(Go(t, true, ""))
    {
      hide Reached;
      ghost var before := View();
      counter := counter - 1;
      threads := threads[t := Idle];
      Record(before, Go(t, true, ""));
    }

    /** `ok`: the artifact is the expected one, is not loaded, and its files could be removed. */
    method CheckRemove(t: Tid, ok: bool)
      requires Valid() && t in threads && threads[t] == RemoveHeld
      modifies this
      ensures Stepped(Go(t, ok, ""))
    {
      hide Reached;
      ghost var before := View();
      threads := threads[t := if !active || counter != 0 || !ok then Release else RemoveChecked];
      Record(before, Go(t, ok, ""));
    }

    method ClearMark(t: Tid)
      requires Valid() && t in threads && threads[t] == RemoveChecked
      modifies this
      ensures Stepped(Go(t, true, ""))
    {
      hide Reached;
      ghost var before := View();
      cached := false;
      threads := threads[t := RemoveClear];
      Record(before, Go(t, true, ""));
    }

    method ClearPath(t: Tid)
      requires Valid() && t in threads && threads[t] == RemoveClear
      modifies this
      ensures Stepped(Go(t, true, ""))
    {
      hide Reached;
      ghost var before := View();
      path := "";
      threads := threads[t := Release];
      Record(before, Go(t, true, ""));
    }

    /** `ok`: the leaf is neither pinned nor loaded. */
    method CheckUpdate(t: Tid, ok: bool)
      requires Valid() && t in threads && threads[t].UpdateHeld?
      modifies this
      ensures Stepped(Go(t, ok, ""))
    {
      hide Reached;
      ghost var before := View();
      var refused := !active || external || counter != 0 || !ok;
      threads := threads[t := if refused then Release else UpdateChecked(threads[t].told)];
      Record(before, Go(t, ok, ""));
    }

    method StoreUpdate(t: Tid)
      requires Valid() && t in threads && threads[t].UpdateChecked?
      modifies this
      ensures Stepped(Go(t, true, ""))
    {
      hide Reached;
      ghost var before := View();
      var told := threads[t].told;
      threads := threads[t := Release];
      if path != told {
        path := told;
        cached := path != "";
      }
      Record(before, Go(t, true, ""));
    }

    method Forget(t: Tid)
      requires Valid() && t in threads && threads[t] == ForgetHeld
      modifies this
      ensures Stepped(Go(t, true, ""))
    {
      hide Reached;
      ghost var before := View();
      threads := threads[t := Release];
      if !external {
        cached := false;
        path := "";
      }
      Record(before, Go(t, true, ""));
    }

    /** `answer` is the completed download's path, or empty. */
    method Refresh(t: Tid, answer: string)
      requires Valid() && t in threads && threads[t] == RefreshHeld
      modifies this
      ensures Stepped(Go(t, true, answer))
    {
      hide Reached;
      ghost var before := View();
      threads := threads[t := Release];
      if active && !external && !cached && answer != "" {
        path := answer;
        cached := true;
      }
      Record(before, Go(t, true, answer));
    }

    method Unlock(t: Tid)
      requires Valid() && t in threads && threads[t] == Release
      modifies this
      ensures Stepped(Go(t, true, ""))
    {
      hide Reached;
      ghost var before := View();
      threads := threads[t := Idle];
      Record(before, Go(t, true, ""));
    }

    method Deactivate()
      requires Valid()
      modifies this
      ensures Stepped(Action.Deactivate)
    {
      hide Reached;
      ghost var before := View();
      active := false;
      Record(before, Action.Deactivate);
    }

    // -------------------------------------------------------------------
    // Other threads
    // -------------------------------------------------------------------

    predicate LockFree()
      reads this
    {
      forall t | t in threads :: !Holds(threads[t])
    }

    /** The next step of a call. */
    method CallGoes(t: Tid, ok: bool, answer: string) returns (ghost taken: Action)
      requires Valid() && t in threads && threads[t] != Idle
      modifies this
      ensures Stepped(taken) && By(taken, t)
    {
      hide Reached, GoStep;
      taken := Go(t, true, "");
      match threads[t]
      case DownloadStart => LookWhetherCached(t);
      case DownloadFetch => Fetch(t, ok, answer); taken := Go(t, ok, answer);
      case DownloadPublish(_) => PublishPath(t);
      case DownloadMark => SetMark(t);
      case DownloadLeave => LeaveWindow(t);
      case RemoveHeld => CheckRemove(t, ok); taken := Go(t, ok, "");
      case RemoveChecked => ClearMark(t);
      case RemoveClear => ClearPath(t);
      case UpdateHeld(_) => CheckUpdate(t, ok); taken := Go(t, ok, "");
      case UpdateChecked(_) => StoreUpdate(t);
      case ForgetHeld => Forget(t);
      case RefreshHeld => Refresh(t, answer); taken := Go(t, true, answer);
      case Release => Unlock(t);
    }

    /** One step of another thread, if it can take it now. */
    method OtherStep(a: Action, t: Tid)
      requires Valid() && !By(a, t)
      modifies this
      ensures Valid() && Rely(old(View()), View(), t)
    {
      ghost var before := View();
      ReachedInv(before, leaf, history);
      hide Inv, Reached, EnterStep, GoStep;
      match a
      case Enter(u, request, ok) =>
        var unlocked := (request.RemoveFromCache? && external) || (request.UpdateCachedState? && !ok) || LockFree();
        if u in threads && threads[u] == Idle && unlocked {
          var entered := EnterCall(u, request, ok);
          StepRely(before, a, t);
        }
      case Go(u, ok, answer) =>
        if u in threads && threads[u] != Idle {
          ghost var taken := CallGoes(u, ok, answer);
          StepRely(before, taken, t);
        }
      case Deactivate =>
        Deactivate();
        StepRely(before, a, t);
    }

    /** Between two steps of this thread the others take any number of theirs, or none. */
    method Pause(t: Tid) returns (ghost quiet: bool)
      requires Valid() && t in threads
      modifies this
      ensures Valid() && t in threads && threads[t] == old(threads)[t] && (active ==> old(active))
      ensures Holds(threads[t]) && old(counter) == 0 ==> counter == 0 && path == old(path) && cached == old(cached)
      ensures quiet ==> View() == old(View())
    {
      var script: seq<Action> := *;
      quiet := script == [];
      hide Inv, Reached;
      for i := 0 to |script|
        invariant Valid() && Rely(old(View()), View(), t) && (quiet ==> View() == old(View()))
      {
        if !By(script[i], t) {
          ghost var before := View();
          hide Rely;
          OtherStep(script[i], t);
          RelyTrans(old(View()), before, View(), t);
        }
      }
    }

    // -------------------------------------------------------------------
    // Calls
    // -------------------------------------------------------------------

    /**
      Download, with the download manager's answer, while other threads go on.  On
      every way out the thread has left the window, so that the counter is the number
      of the others in it; left alone, the call leaves the counter as it found it.
    */
    method Download(t: Tid, ok: bool, answer: string) returns (ghost quiet: bool)
      requires Valid() && Enabled(View(), Enter(t, Request.Download, true))
      modifies this
      ensures Valid() && t in threads && threads[t] == Idle && counter == |Window(threads)|
      ensures !old(active) ==> View() == old(View())
      ensures quiet ==> View() == Downloaded(old(View()), ok, answer)
    {
      hide Reached, Window;
      var entered := EnterCall(t, Request.Download, true);
      quiet := true;
      if entered {
        ghost var q := Pause(t);
        LookWhetherCached(t);
        ghost var q' := q;
        if threads[t] == DownloadFetch {
          q' := FetchAndPublish(t, ok, answer);
        }
        ghost var q'' := Pause(t);
        LeaveWindow(t);
        quiet := q && q' && q'';
        assert quiet ==> threads == old(threads)[t := Idle] == old(threads);
      }
      InWindowCounts(View(), leaf, history);
    }

    /** The download itself; what it finds is published before the mark is set. */
    method FetchAndPublish(t: Tid, ok: bool, answer: string) returns (ghost quiet: bool)
      requires Valid() && t in threads && threads[t] == DownloadFetch
      modifies this
      ensures Valid() && t in threads && threads[t] == DownloadLeave
      ensures quiet ==> threads == old(threads)[t := DownloadLeave] && counter == old(counter) && active == old(active)
      ensures quiet ==> path == (if ok then answer else old(path)) && cached == (ok || old(cached))
    {
      hide Reached;
      ghost var q := Pause(t);
      Fetch(t, ok, answer);
      quiet := q;
      if threads[t] != DownloadLeave {
        ghost var q' := Pause(t);
        PublishPath(t);
        ghost var q'' := Pause(t);
        SetMark(t);
        quiet := q && q' && q'';
      }
    }

    /** The end of a call that owns the lifecycle mutex. */
    method GiveUpLock(t: Tid) returns (ghost quiet: bool)
      requires Valid() && t in threads && threads[t] == Release
      modifies this
      ensures Valid() && t in threads && threads[t] == Idle
      ensures old(counter) == 0 ==> counter == 0 && path == old(path) && cached == old(cached)
      ensures quiet ==> View() == old(View()).(threads := old(threads)[t := Idle])
    {
      hide Reached;
      quiet := Pause(t);
      Unlock(t);
    }

    /**
      RemoveFromCache.  The files are removed only if no download is under way, and
      then mark and path go together: until the call is over nobody can publish.
    */
    method RemoveFromCache(t: Tid, ok: bool) returns (removed: bool, ghost quiet: bool)
      requires Valid() && Enabled(View(), Enter(t, Request.RemoveFromCache, true))
      modifies this
      ensures Valid() && t in threads && threads[t] == Idle
      ensures external ==> !removed && View() == old(View())
      ensures removed ==> ok && counter == 0 && path == "" && !cached
      ensures quiet ==> removed == (!external && active && counter == 0 && ok)
      ensures quiet ==> View() == if removed then old(View()).(cached := false, path := "") else old(View())
    {
      hide Reached;
      var entered := EnterCall(t, Request.RemoveFromCache, true);
      removed, quiet := false, true;
      if entered {
        ghost var q := Pause(t);
        CheckRemove(t, ok);
        removed := threads[t] == RemoveChecked;
        ghost var q' := true;
        if removed {
          q' := ClearBoth(t);
        }
        ghost var q'' := GiveUpLock(t);
        quiet := q && q' && q'';
        assert quiet ==> threads == old(threads)[t := Idle] == old(threads);
      }
    }

    /** The two stores; the files are gone already. */
    method ClearBoth(t: Tid) returns (ghost quiet: bool)
      requires Valid() && t in threads && threads[t] == RemoveChecked && counter == 0
      modifies this
      ensures Valid() && t in threads && threads[t] == Release && counter == 0 && path == "" && !cached
      ensures quiet ==> threads == old(threads)[t := Release] && active == old(active)
    {
      hide Reached;
      ghost var q := Pause(t);
      ClearMark(t);
      ghost var q' := Pause(t);
      ClearPath(t);
      quiet := q && q';
    }

    /** UpdateCachedState: a scan's path is taken over only if no download is under way; then it stays. */
    method UpdateCachedState(t: Tid, told: string, locked: bool, ok: bool) returns (taken: bool, ghost quiet: bool)
      requires Valid() && Enabled(View(), Enter(t, Request.UpdateCachedState(told), locked))
      modifies this
      ensures Valid() && t in threads && threads[t] == Idle
      ensures taken ==> locked && ok && !external && counter == 0 && path == told
      ensures quiet ==> taken == (locked && active && !external && counter == 0 && ok)
      ensures quiet ==> View() == if taken && old(path) != told
                                  then old(View()).(path := told, cached := told != "") else old(View())
    {
      hide Reached;
      var entered := EnterCall(t, Request.UpdateCachedState(told), locked);
      taken, quiet := false, true;
      if entered {
        ghost var q := Pause(t);
        CheckUpdate(t, ok);
        taken := threads[t] != Release;
        ghost var q' := true;
        if taken {
          q' := StoreTold(t, told);
        }
        ghost var q'' := GiveUpLock(t);
        quiet := q && q' && q'';
        assert quiet ==> threads == old(threads)[t := Idle] == old(threads);
      }
    }

    method StoreTold(t: Tid, ghost told: string) returns (ghost quiet: bool)
      requires Valid() && t in threads && threads[t] == UpdateChecked(told) && counter == 0
      modifies this
      ensures Valid() && t in threads && threads[t] == Release && counter == 0 && path == told
      ensures cached == if old(path) == told then old(cached) else told != ""
      ensures quiet ==> threads == old(threads)[t := Release] && active == old(active)
    {
      hide Reached;
      quiet := Pause(t);
      StoreUpdate(t);
    }

    /** ForgetCachedState looks at no counter: only with no download under way is the leaf sure to be left clear. */
    method ForgetCachedState(t: Tid) returns (ghost quiet: bool)
      requires Valid() && Enabled(View(), Enter(t, Request.ForgetCachedState, true))
      modifies this
      ensures Valid() && t in threads && threads[t] == Idle
      ensures !external && old(counter) == 0 ==> counter == 0 && path == "" && !cached
      ensures quiet ==> View() == if external then old(View()) else old(View()).(cached := false, path := "")
    {
      hide Reached;
      var entered := EnterCall(t, Request.ForgetCachedState, true);
      ghost var q := Pause(t);
      Forget(t);
      ghost var q' := GiveUpLock(t);
      quiet := q && q';
      assert quiet ==> threads == old(threads)[t := Idle] == old(threads);
    }

    method RefreshCachedState(t: Tid, answer: string) returns (ghost quiet: bool)
      requires Valid() && Enabled(View(), Enter(t, Request.RefreshCachedState, true))
      modifies this
      ensures Valid() && t in threads && threads[t] == Idle
      ensures old(counter) == 0 && old(cached) ==> counter == 0 && path == old(path) && cached
      ensures quiet ==> View() == if active && !external && !old(cached) && answer != ""
                                  then old(View()).(path := answer, cached := true) else old(View())
    {
      hide Reached;
      var entered := EnterCall(t, Request.RefreshCachedState, true);
      ghost var q := Pause(t);
      Refresh(t, answer);
      ghost var q' := GiveUpLock(t);
      quiet := q && q';
      assert quiet ==> threads == old(threads)[t := Idle] == old(threads);
    }
  }
}
