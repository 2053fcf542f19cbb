/**
  The container operations as they change their fields (sdk_v2/cpp/src/model.cc:
  210-398, 838-931), each proved against its step in ContainerRuns.

  `held` stands for the lifecycle mutex while an unregister transaction owns it.
*/
module ModelContainer {
  import opened ModelInfoJson
  import opened VariantOrder
  import opened ModelLeaf
  import opened ContainerSpec
  import opened ContainerRuns

  ghost function EnvOf(leaves: seq<Leaf>): Env
    reads leaves
  {
    map l | l in leaves :: l.View()
  }

  ghost predicate PathsAgree(leaves: seq<Leaf>, env: Env)
    reads leaves`path
  {
    forall l :: l in leaves ==> ViewOf(env, l).path == l.path
  }

  ghost predicate CachedAgree(leaves: seq<Leaf>, env: Env)
    reads leaves`active, leaves`cached, leaves`onDisk
  {
    forall l :: l in leaves ==> ViewOf(env, l).cached == l.IsCached()
  }

  /** std::upper_bound: binary search in the sorted list. */
  method UpperBound(variants: seq<Leaf>, info: ModelInfo) returns (first: nat)
    requires Sorted(InfosOf(variants))
    ensures first == InsertionPoint(InfosOf(variants), info)
  {
    hide Sorted, Better, InsertionPoint;
    first := 0;
    var count: nat := |variants|;
    while count > 0
      invariant first + count <= |variants|
      invariant first > 0 ==> !Better(info, variants[first - 1].info)
      invariant first + count < |variants| ==> Better(info, variants[first + count].info)
    {
      var half := count / 2;
      if Better(info, variants[first + half].info) {
        count := half;
      } else {
        first := first + half + 1;
        count := count - half - 1;
      }
    }
    PointIsUnique(InfosOf(variants), info, first);
  }

  method InsertSorted(order: seq<Leaf>, leaf: Leaf) returns (r: seq<Leaf>)
    requires Sorted(InfosOf(order))
    ensures Sorted(InfosOf(r)) && multiset(r) == multiset(order) + multiset{leaf}
  {
    hide Sorted, InsertionPoint;
    var n := UpperBound(order, leaf.info);
    r := order[..n] + [leaf] + order[n..];
    InsertBag(order, n, leaf);
    InsertInfos(order, leaf);
    InsertKeepsSorted(InfosOf(order), leaf.info);
  }

  lemma NothingToSort()
    ensures Sorted(InfosOf([]))
  {
  }

  /** std::sort with the comparator: some sorted arrangement of the same leaves. */
  method SortVariants(variants: seq<Leaf>) returns (order: seq<Leaf>)
    ensures multiset(order) == multiset(variants) && Sorted(InfosOf(order))
  {
    hide Sorted;
    order := [];
    NothingToSort();
    for i := 0 to |variants|
      invariant multiset(order) == multiset(variants[..i]) && Sorted(InfosOf(order))
    {
      order := InsertSorted(order, variants[i]);
      assert variants[..i + 1] == variants[..i] + [variants[i]];
    }
    assert variants[..|variants|] == variants;
  }

  /** The first incoming variant with the metadata and path of a current one. */
  method FindMatch(leaf: Leaf, incoming: seq<Leaf>, ghost env: Env) returns (i: nat)
    requires PathsAgree(incoming, env) && ViewOf(env, leaf).path == leaf.path
    ensures i == FindRow(incoming, RowOf(leaf, env), env, 0)
  {
    i := 0;
    while i < |incoming| && !(leaf.info == incoming[i].info && leaf.path == incoming[i].path)
      invariant i <= |incoming|
      invariant FindRow(incoming, RowOf(leaf, env), env, 0) == FindRow(incoming, RowOf(leaf, env), env, i)
    {
      i := i + 1;
    }
  }

  lemma PathOf(leaf: Leaf, leaves: seq<Leaf>, all: seq<Leaf>, env: Env)
    requires leaf in leaves && Within(leaves, all) && PathsAgree(all, env)
    ensures ViewOf(env, leaf).path == leaf.path
  {
  }

  lemma InBefore(leaf: Leaf, leaves: seq<Leaf>, all: seq<Leaf>)
    requires leaf in leaves && Within(leaves, all)
    ensures leaf in all
  {
  }

  lemma PathsWithin(leaves: seq<Leaf>, all: seq<Leaf>, env: Env)
    requires Within(leaves, all) && PathsAgree(all, env)
    ensures PathsAgree(leaves, env)
  {
  }

  /** One round of the matching loop. */
  lemma MatchRound(current: seq<Leaf>, incoming: seq<Leaf>, env: Env, i: nat)
    requires i < |current|
    ensures var f := FindRow(incoming, RowOf(current[i], env), env, 0);
            var m := Match(current[i..], incoming, env);
            if f < |incoming| then
              var n := Match(current[i + 1..], Without(incoming, f), env);
              m == n.(kept := [current[i]] + n.kept)
            else
              var n := Match(current[i + 1..], incoming, env);
              m == n.(dropped := [current[i]] + n.dropped)
  {
    hide RowOf, Without;
    assert current[i..][1..] == current[i + 1..];
  }

  /** How far the matching loop has got at position i. */
  ghost predicate Progress(m: Matching, current: seq<Leaf>, incoming: seq<Leaf>, dropped: seq<Leaf>, i: nat, env: Env) {
    && i <= |current|
    && var rest := Match(current[i..], incoming, env);
       m == Matching(current[..i] + rest.kept, dropped + rest.dropped, rest.added)
  }

  ghost predicate Within(leaves: seq<Leaf>, all: seq<Leaf>) { forall l :: l in leaves ==> l in all }

  lemma WithoutIsWithin(s: seq<Leaf>, i: nat, all: seq<Leaf>)
    requires i < |s| && Within(s, all)
    ensures Within(Without(s, i), all)
  {
  }

  lemma KeepRound(m: Matching, current: seq<Leaf>, incoming: seq<Leaf>, dropped: seq<Leaf>, i: nat, env: Env, f: nat)
    requires Progress(m, current, incoming, dropped, i, env)
    requires i < |current| && f == FindRow(incoming, RowOf(current[i], env), env, 0) && f < |incoming|
    ensures Progress(m, current, Without(incoming, f), dropped, i + 1, env)
  {
    hide RowOf, Match, Without, FindRow;
    MatchRound(current, incoming, env, i);
    var rest := Match(current[i + 1..], Without(incoming, f), env);
    assert current[..i] + ([current[i]] + rest.kept) == current[..i + 1] + rest.kept;
  }

  lemma DropRound(m: Matching, current: seq<Leaf>, incoming: seq<Leaf>, dropped: seq<Leaf>, i: nat, env: Env)
    requires Progress(m, current, incoming, dropped, i, env)
    requires i < |current| && FindRow(incoming, RowOf(current[i], env), env, 0) == |incoming|
    ensures Progress(m, Without(current, i), incoming, dropped + [current[i]], i, env)
  {
    hide RowOf, Match, FindRow;
    MatchRound(current, incoming, env, i);
    var rest := Match(current[i + 1..], incoming, env);
    assert Without(current, i)[..i] == current[..i] && Without(current, i)[i..] == current[i + 1..];
    assert dropped + ([current[i]] + rest.dropped) == dropped + [current[i]] + rest.dropped;
  }

  lemma MatchingStarts(current: seq<Leaf>, incoming: seq<Leaf>, env: Env)
    ensures Progress(Match(current, incoming, env), current, incoming, [], 0, env)
  {
    assert current[0..] == current;
  }

  lemma OneMore(before: set<Leaf>, dropped: seq<Leaf>, leaf: Leaf)
    ensures before + ToSet(dropped) + {leaf} == before + ToSet(dropped + [leaf])
  {
  }

  lemma MatchingEnds(m: Matching, current: seq<Leaf>, incoming: seq<Leaf>, dropped: seq<Leaf>, env: Env)
    requires Progress(m, current, incoming, dropped, |current|, env)
    ensures m == Matching(current, dropped, incoming)
  {
    assert current[|current|..] == [];
  }

  /** The first cached variant. */
  method FindCached(variants: seq<Leaf>, ghost env: Env) returns (i: nat)
    requires CachedAgree(variants, env)
    ensures i == FirstFrom(variants, CachedOf(variants, env), 0)
  {
    i := 0;
    while i < |variants| && !variants[i].IsCached()
      invariant i <= |variants|
      invariant FirstFrom(variants, CachedOf(variants, env), 0) == FirstFrom(variants, CachedOf(variants, env), i)
    {
      i := i + 1;
    }
  }

  /** What is listed after the matching loop: kept leaves that were not dropped, and fresh ones. */
  lemma Survivors(s: State, incoming: seq<Leaf>, env: Env)
    requires Once(Placed(s)) && incoming != []
    ensures var m := Match(s.variants, incoming, env);
            && m.kept + m.added != []
            && (forall l :: l in m.kept ==> l in s.variants && l !in m.dropped)
            && (forall l :: l in m.added ==> l in incoming)
  {
    hide Match, RowOf;
    var m := Match(s.variants, incoming, env);
    MatchedLeaves(s.variants, incoming, env);
    MatchedRows(s.variants, incoming, env);
    RowsTogether(m.kept, m.added, env);
    assert RowsOf(incoming, env)[0] in multiset(RowsOf(incoming, env));
    OncePart(multiset(s.variants), multiset(s.retired));
    forall l | l in m.kept
      ensures l in s.variants && l !in m.dropped
    {
      assert l in multiset(m.kept);
      assert l in multiset(s.variants);
      assert l in m.dropped ==> l in multiset(m.dropped);
    }
    forall l | l in m.added
      ensures l in incoming
    {
      assert l in multiset(m.added);
      assert l in multiset(incoming);
    }
  }

  lemma OwnedApart(s: State, incoming: seq<Leaf>)
    requires forall l :: l in incoming ==> l !in Placed(s)
    ensures forall l :: l in incoming ==> l !in s.variants
  {
    forall l | l in s.variants
      ensures l in Placed(s)
    {
      assert l in multiset(s.variants);
    }
  }

  lemma EnvAgrees(leaves: seq<Leaf>, all: seq<Leaf>)
    requires forall l :: l in leaves ==> l in all
    ensures PathsAgree(leaves, EnvOf(all)) && CachedAgree(leaves, EnvOf(all))
  {
  }

  lemma EnvInUse(leaf: Leaf, all: seq<Leaf>)
    requires leaf in all
    ensures InUse(leaf, EnvOf(all)) == (leaf.pinned || leaf.IsLoaded())
  {
  }

  lemma CachedPermute(order: seq<Leaf>, leaves: seq<Leaf>, env: Env)
    requires multiset(order) == multiset(leaves) && CachedAgree(leaves, env)
    ensures CachedAgree(order, env)
  {
    forall l | l in order
      ensures l in leaves
    {
      assert l in multiset(order);
    }
  }

  lemma OthersAgree(variants: seq<Leaf>, i: nat, env: Env)
    requires i < |variants| && Once(multiset(variants)) && CachedAgree(variants, env)
    ensures CachedAgree(Without(variants, i), env) && variants[i] !in Without(variants, i)
  {
    WithoutBag(variants, i);
    assert variants[i] in multiset(variants);
    var rest := Without(variants, i);
    assert variants[i] !in multiset(rest);
  }

  lemma Apart(variants: seq<Leaf>, i: nat)
    requires i < |variants| && Once(multiset(variants))
    ensures forall k :: 0 <= k < |variants| && k != i ==> variants[k] != variants[i]
  {
    WithoutBag(variants, i);
    assert variants[i] in multiset(variants);
    var rest := Without(variants, i);
    forall k | 0 <= k < |variants| && k != i
      ensures variants[k] != variants[i]
    {
      assert variants[k] == rest[if k < i then k else k - 1];
      assert variants[k] in multiset(rest);
    }
  }

  /** How far the loop over the variants has got when it looks at position i. */
  ghost predicate Scanned(variants: seq<Leaf>, eligible: set<Leaf>, env: Env, i: nat, best: Option<Leaf>) {
    && i <= |variants|
    && FirstFrom(variants, eligible * CachedOf(variants, env), 0)
    == FirstFrom(variants, eligible * CachedOf(variants, env), i)
    && match best
       case Some(leaf) => FirstFrom(variants, eligible, 0) < i && leaf == variants[FirstFrom(variants, eligible, 0)]
       case None => FirstFrom(variants, eligible, 0) == FirstFrom(variants, eligible, i)
  }

  datatype Outcome = Refused | Busy | Done

  class Container {
    var variants: seq<Leaf>
    var retired: seq<Leaf>
    var selected: Leaf
    var explicit: bool
    var eligibleDefault: bool
    var loadingVariant: Option<Leaf>
    var active: bool
    var held: bool
    var unregistering: bool
    var lockedVariants: seq<Leaf>
    ghost var inactive: set<Leaf>
    ghost var choice: Option<Leaf>

    ghost function View(): State
      reads this`variants, this`retired, this`selected, this`explicit, this`eligibleDefault, this`inactive, this`choice
    {
      State(variants, retired, selected, explicit, eligibleDefault, inactive, choice)
    }

    /** The deactivated leaves are the inactive ones of the history. */
    ghost predicate Deactivated()
      reads this`inactive, inactive`active
    {
      forall l :: l in inactive ==> !l.active
    }

    constructor MakeContainer(first: Leaf)
      ensures View() == NewContainer(first) && Deactivated()
      ensures variants == [first] && retired == [] && selected == first && !explicit
      ensures active && !held && !unregistering && lockedVariants == [] && loadingVariant == None
    {
      variants, retired, selected := [first], [], first;
      explicit, eligibleDefault, active, held, unregistering := false, true, true, false, false;
      lockedVariants, loadingVariant := [], None;
      inactive, choice := {}, None;
    }

    method AddVariant(leaf: Leaf)
      requires Sorted(InfosOf(variants))
      modifies this`variants
      ensures View() == AddStep(old(View()), leaf) && AddOutcome(old(View()), View(), leaf)
    {
      AddDoes(View(), leaf);
      hide Sorted, InsertionPoint;
      var pos := UpperBound(variants, leaf.info);
      variants := variants[..pos] + [leaf] + variants[pos..];
    }

    /** Deactivate a listed leaf and move it to the retired ones. */
    method RetireAt(i: nat)
      requires i < |variants| && Deactivated()
      modifies this`variants, this`retired, this`inactive, {variants[i]}`active
      ensures variants == Without(old(variants), i) && retired == old(retired) + [old(variants[i])]
      ensures inactive == old(inactive) + {old(variants[i])} && Deactivated()
    {
      hide Without;
      var leaf := variants[i];
      leaf.Deactivate();
      retired := retired + [leaf];
      inactive := inactive + {leaf};
      variants := Without(variants, i);
    }

    /** One round of the first loop of TryReconcileVariants. */
    method KeepOrRetire(incoming: Container, i: nat, ghost env: Env) returns (kept: bool, ghost found: nat)
      requires incoming != this && i < |variants| && Deactivated()
      requires PathsAgree(incoming.variants, env) && ViewOf(env, variants[i]).path == variants[i].path
      modifies this`variants, this`retired, this`inactive, incoming`variants, {variants[i]}`active
      ensures found == FindRow(old(incoming.variants), RowOf(old(variants[i]), env), env, 0) && Deactivated()
      ensures kept == (found < |old(incoming.variants)|)
      ensures kept ==>
                && incoming.variants == Without(old(incoming.variants), found)
                && variants == old(variants) && retired == old(retired) && inactive == old(inactive)
                && old(variants[i]).active == old(variants[i].active)
      ensures !kept ==>
                && variants == Without(old(variants), i) && retired == old(retired) + [old(variants[i])]
                && inactive == old(inactive) + {old(variants[i])} && incoming.variants == old(incoming.variants)
    {
      hide Without, RowOf, FindRow;
      var match_ := FindMatch(variants[i], incoming.variants, env);
      kept, found := match_ < |incoming.variants|, match_;
      if kept {
        incoming.variants := Without(incoming.variants, match_);
      } else {
        RetireAt(i);
      }
    }

    /** The same round, as progress through both listings. */
    method MatchOne(incoming: Container, i: nat, ghost env: Env, ghost m: Matching, ghost dropped: seq<Leaf>,
                    ghost before: seq<Leaf>, ghost listed: seq<Leaf>) returns (kept: bool)
      requires incoming != this && i < |variants| && Deactivated()
      requires PathsAgree(before, env) && PathsAgree(listed, env)
      requires Within(variants, before) && Within(incoming.variants, listed)
      requires Progress(m, variants, incoming.variants, dropped, i, env)
      modifies this`variants, this`retired, this`inactive, incoming`variants, {variants[i]}`active
      ensures Within(variants, before) && Within(incoming.variants, listed) && Deactivated()
      ensures kept ==>
                && Progress(m, variants, incoming.variants, dropped, i + 1, env)
                && variants == old(variants) && retired == old(retired) && inactive == old(inactive)
                && old(variants[i]).active == old(variants[i].active)
      ensures !kept ==>
                && Progress(m, variants, incoming.variants, dropped + [old(variants[i])], i, env)
                && |variants| < |old(variants)|
                && retired == old(retired) + [old(variants[i])] && inactive == old(inactive) + {old(variants[i])}
    {
      ghost var current, offered := variants, incoming.variants;
      PathOf(variants[i], variants, before, env);
      PathsWithin(incoming.variants, listed, env);
      hide RowOf, Match, FindRow, Progress, Within, PathsAgree, ViewOf;
      ghost var found;
      kept, found := KeepOrRetire(incoming, i, env);
      if kept {
        KeepRound(m, current, offered, dropped, i, env, found);
        WithoutIsWithin(offered, found, listed);
      } else {
        DropRound(m, current, offered, dropped, i, env);
        WithoutIsWithin(current, i, before);
      }
    }

    /** The first loop of TryReconcileVariants. */
    method DropUnlisted(incoming: Container, ghost env: Env)
      requires incoming != this && Deactivated()
      requires PathsAgree(variants, env) && PathsAgree(incoming.variants, env)
      requires forall l :: l in incoming.variants ==> l !in variants
      modifies this`variants, this`retired, this`inactive, incoming`variants, variants`active
      ensures var m := Match(old(variants), old(incoming.variants), env);
              && variants == m.kept && incoming.variants == m.added && retired == old(retired) + m.dropped
              && inactive == old(inactive) + ToSet(m.dropped)
      ensures Deactivated()
      ensures forall l :: l in old(variants) && l !in Match(old(variants), old(incoming.variants), env).dropped ==>
                l.active == old(l.active)
    {
      ghost var before, listed := variants, incoming.variants;
      ghost var m := Match(before, listed, env);
      var i := 0;
      ghost var dropped: seq<Leaf> := [];
      MatchingStarts(before, listed, env);
      assert Within(before, before) && Within(listed, listed) && ToSet([]) == {};
      hide Match, Progress, Within, PathsAgree, ToSet;
      while i < |variants|
        invariant i <= |variants|
        invariant Progress(m, variants, incoming.variants, dropped, i, env)
        invariant Within(variants, before) && Within(incoming.variants, listed)
        invariant retired == old(retired) + dropped && inactive == old(inactive) + ToSet(dropped)
        invariant Deactivated()
        invariant forall l :: l in before && l !in dropped ==> l.active == old(l.active)
        decreases |variants| - i
      {
        ghost var leaf := variants[i];
        InBefore(leaf, variants, before);
        var kept := MatchOne(incoming, i, env, m, dropped, before, listed);
        if kept {
          i := i + 1;
        } else {
          OneMore(old(inactive), dropped, leaf);
          dropped := dropped + [leaf];
        }
      }
      MatchingEnds(m, variants, incoming.variants, dropped, env);
    }

    /** The list work of TryReconcileVariants: drop, append what is new, sort. */
    method ReplaceVariants(incoming: Container, ghost env: Env)
      requires incoming != this && incoming.variants != [] && Deactivated()
      requires PathsAgree(variants, env) && PathsAgree(incoming.variants, env)
      requires CachedAgree(variants, env) && CachedAgree(incoming.variants, env)
      requires Once(Placed(View())) && forall l :: l in incoming.variants ==> l !in variants
      modifies this`variants, this`retired, this`inactive, incoming`variants, variants`active
      ensures SortOutcome(old(View()), old(incoming.variants), env, variants)
      ensures variants != [] && incoming.variants == []
      ensures var m := Match(old(variants), old(incoming.variants), env);
              retired == old(retired) + m.dropped && inactive == old(inactive) + ToSet(m.dropped)
      ensures Deactivated() && CachedAgree(variants, env)
    {
      hide Sorted, Match, Once, ToSet, Placed, ViewOf, PathsAgree;
      ghost var m := Match(variants, incoming.variants, env);
      Survivors(View(), incoming.variants, env);
      DropUnlisted(incoming, env);
      variants := variants + incoming.variants;
      incoming.variants := [];
      assert CachedAgree(m.kept, env) && CachedAgree(m.added, env);
      assert multiset(m.kept + m.added) == multiset(m.kept) + multiset(m.added);
      variants := SortVariants(variants);
      CachedPermute(variants, m.kept + m.added, env);
    }

    /** The choice at the end of TryReconcileVariants. */
    method SelectAfterReconcile(previous: Leaf, wasExplicit: bool, preserve: bool, ghost env: Env)
      requires variants != [] && CachedAgree(variants, env)
      modifies this`selected, this`explicit
      ensures selected == if preserve && previous in variants then previous else FirstCached(variants, env)
      ensures explicit == (wasExplicit && previous in variants)
    {
      hide IsBest;
      var retained := previous in variants;
      var cached := FindCached(variants, env);
      if preserve && retained {
        selected := previous;
      } else if cached < |variants| {
        selected := variants[cached];
      } else {
        selected := variants[0];
      }
      explicit := wasExplicit && retained;
    }

    /** TryReconcileVariants once it owns the locks. */
    method Reconcile(incoming: Container, ghost env: Env)
      requires incoming != this && incoming.variants != [] && Deactivated()
      requires PathsAgree(variants, env) && PathsAgree(incoming.variants, env)
      requires CachedAgree(variants, env) && CachedAgree(incoming.variants, env)
      requires InUse(selected, env) == (selected.pinned || selected.IsLoaded())
      requires Once(Placed(View())) && forall l :: l in incoming.variants ==> l !in variants
      modifies this`variants, this`retired, this`selected, this`explicit, this`inactive
      modifies incoming`variants, variants`active
      ensures variants != [] && SortOutcome(old(View()), old(incoming.variants), env, variants)
      ensures View() == ReconcileStep(old(View()), old(incoming.variants), env, variants)
      ensures incoming.variants == [] && Deactivated()
    {
      hide Sorted, Match, Once, ToSet, Placed, ViewOf, PathsAgree, CachedAgree, FirstCached, SortOutcome, InUse;
      var previous, wasExplicit := selected, explicit;
      var preserve := wasExplicit || previous.pinned || previous.IsLoaded();
      ReplaceVariants(incoming, env);
      SelectAfterReconcile(previous, wasExplicit, preserve, env);
    }

    /**
      Reconcile with a fresh container.  `lifecycleFree` is the answer of try_lock;
      the fresh container's leaves are its own and it lists at least one.
    */
    method TryReconcileVariants(incoming: Container, lifecycleFree: bool, ghost env: Env) returns (r: Outcome)
      requires incoming != this && incoming.variants != [] && Deactivated()
      requires Once(Placed(View())) && forall l :: l in incoming.variants ==> l !in Placed(View())
      requires env == EnvOf(variants + incoming.variants + [selected])
      modifies this`variants, this`retired, this`selected, this`explicit, this`inactive
      modifies incoming`variants, variants`active
      ensures r == if old(selected.info.alias != incoming.selected.info.alias) then Refused
                   else if !lifecycleFree then Busy else Done
      ensures r != Done ==> unchanged(this) && unchanged(incoming) && unchanged(old(variants))
      ensures r == Done ==> variants != [] && SortOutcome(old(View()), old(incoming.variants), env, variants)
      ensures r == Done ==> View() == ReconcileStep(old(View()), old(incoming.variants), env, variants)
      ensures r == Done ==> ReconcileOutcome(old(View()), View(), old(incoming.variants), env)
      ensures r == Done ==> incoming.variants == [] && Deactivated()
    {
      if selected.info.alias != incoming.selected.info.alias {
        return Refused;
      }
      if !lifecycleFree {
        return Busy;
      }
      EnvAgrees(variants, variants + incoming.variants + [selected]);
      EnvAgrees(incoming.variants, variants + incoming.variants + [selected]);
      EnvInUse(selected, variants + incoming.variants + [selected]);
      OwnedApart(View(), incoming.variants);
      hide Once, Placed, PathsAgree, CachedAgree, EnvOf, SortOutcome, InUse, ReconcileStep, ReconcileOutcome;
      ghost var before, listed := View(), incoming.variants;
      Reconcile(incoming, env);
      ReconcileDoes(before, listed, env, variants);
      return Done;
    }

    /** The first variant with an id. */
    method FindVariant(id: string) returns (i: nat)
      ensures i == FindId(variants, id, 0)
    {
      i := 0;
      while i < |variants| && variants[i].info.modelId != id
        invariant i <= |variants|
        invariant FindId(variants, id, 0) == FindId(variants, id, i)
      {
        i := i + 1;
      }
    }

    /** Deactivate the variant with an id and move it to the retired ones; false when nothing is listed. */
    method RetireVariant(id: string, ghost env: Env) returns (remain: bool)
      requires Deactivated() && CachedAgree(variants, env) && Once(multiset(variants))
      modifies this`variants, this`retired, this`selected, this`explicit, this`inactive, variants`active
      ensures View() == RetireStep(old(View()), id, env) && Deactivated()
      ensures RetireOutcome(old(View()), View(), id, env) && remain == (variants != [])
    {
      RetireDoes(View(), id, env);
      hide RetireOutcome;
      hide Once, FirstCached;
      var i := FindVariant(id);
      if i == |variants| {
        return variants != [];
      }
      var leaf := variants[i];
      OthersAgree(variants, i, env);
      ghost var rest := Without(variants, i);
      RetireAt(i);
      assert CachedAgree(rest, env);
      if variants == [] {
        explicit, selected := false, leaf;
        return false;
      }
      if selected == leaf {
        SelectFirstCached(env);
      }
      return true;
    }

    method SelectFirstCached(ghost env: Env)
      requires variants != [] && CachedAgree(variants, env)
      modifies this`selected, this`explicit
      ensures selected == FirstCached(variants, env) && !explicit
    {
      var cached := FindCached(variants, env);
      selected := if cached < |variants| then variants[cached] else variants[0];
      explicit := false;
    }

    /** The loop of SelectDefaultVariantLocked. */
    method ScanForDefault(eligible: set<Leaf>, ghost env: Env)
      returns (bestEligible: Option<Leaf>, bestCached: Option<Leaf>)
      requires CachedAgree(variants, env)
      ensures var e := FirstFrom(variants, eligible, 0);
              bestEligible == if e < |variants| then Some(variants[e]) else None
      ensures var c := FirstFrom(variants, eligible * CachedOf(variants, env), 0);
              bestCached == if c < |variants| then Some(variants[c]) else None
    {
      bestEligible, bestCached := None, None;
      var i := 0;
      while i < |variants|
        invariant Scanned(variants, eligible, env, i, bestEligible)
      {
        var v := variants[i];
        if v in eligible {
          if bestEligible == None {
            bestEligible := Some(v);
          }
          if v.IsCached() {
            bestCached := Some(v);
            break;
          }
        }
        i := i + 1;
      }
    }

    /** Choose the default variant unless the present selection is to be preserved. */
    method SelectDefaultVariant(eligible: set<Leaf>, preserve: bool, ghost env: Env) returns (changed: bool)
      requires variants != [] && CachedAgree(variants, env) && selected in env && env[selected] == selected.View()
      modifies this`selected, this`explicit, this`eligibleDefault
      ensures View() == DefaultStep(old(View()), eligible, preserve, loadingVariant, env)
      ensures DefaultOutcome(old(View()), View(), eligible, preserve, loadingVariant, env)
      ensures changed == !(preserve && old(explicit || loadingVariant == Some(selected) || selected.downloads != 0
                                           || selected.pinned || selected.IsLoaded()))
      ensures changed && Sorted(InfosOf(variants)) && DistinctIds(InfosOf(variants)) ==>
                IsBest(selected, DefaultPool(variants, eligible, env))
      ensures !changed ==> selected == old(selected) && explicit == old(explicit)
      ensures changed ==> !explicit
    {
      hide CachedAgree, DefaultOutcome, DefaultPool, DefaultStep, IsBest, Sorted, DistinctIds;
      DefaultDoes(View(), eligible, preserve, loadingVariant, env);
      DefaultIsInPool(variants, eligible, env);
      changed := SelectDefaultVariantLocked(eligible, preserve, env);
    }

    /** The same under the state mutex. */
    method SelectDefaultVariantLocked(eligible: set<Leaf>, preserve: bool, ghost env: Env) returns (changed: bool)
      requires variants != [] && CachedAgree(variants, env) && selected in env && env[selected] == selected.View()
      modifies this`selected, this`explicit, this`eligibleDefault
      ensures View() == DefaultStep(old(View()), eligible, preserve, loadingVariant, env)
      ensures changed == !(preserve && old(explicit || loadingVariant == Some(selected) || selected.downloads != 0
                                           || selected.pinned || selected.IsLoaded()))
      ensures changed ==> selected == DefaultChoice(variants, eligible, env) && !explicit
      ensures !changed ==> selected == old(selected) && explicit == old(explicit)
    {
      hide CachedAgree, FirstFrom, CachedOf;
      var inUse := selected.downloads != 0 || selected.pinned || selected.IsLoaded();
      var preserved := preserve && (explicit || loadingVariant == Some(selected) || inUse);
      var bestEligible, bestCached := ScanForDefault(eligible, env);
      eligibleDefault := bestEligible.Some?;
      if preserved {
        return false;
      }
      explicit := false;
      selected := if bestCached.Some? then bestCached.value
                  else if bestEligible.Some? then bestEligible.value else variants[0];
      return true;
    }

    /** Make a listed leaf the explicit selection; refuse any other. */
    method SelectVariant(leaf: Leaf) returns (ok: bool)
      modifies this`selected, this`explicit, this`choice
      ensures View() == SelectStep(old(View()), leaf) && ok == (leaf in variants)
      ensures if ok then selected == leaf && explicit && choice == Some(leaf) else View() == old(View())
    {
      var i := 0;
      while i < |variants|
        invariant i <= |variants| && leaf !in variants[..i]
      {
        if variants[i] == leaf {
          explicit, selected, choice := true, leaf, Some(leaf);
          return true;
        }
        i := i + 1;
      }
      return false;
    }

    method Deactivate()
      requires Deactivated()
      modifies this`active, this`inactive, variants`active
      ensures !active && Deactivated()
      ensures View() == old(View()).(inactive := old(inactive) + ToSet(variants))
    {
      active := false;
      for i := 0 to |variants|
        invariant !active && Deactivated() && inactive == old(inactive) + ToSet(variants[..i])
      {
        variants[i].Deactivate();
        OneMore(old(inactive), variants[..i], variants[i]);
        assert variants[..i + 1] == variants[..i] + [variants[i]];
        inactive := inactive + {variants[i]};
      }
      assert variants[..|variants|] == variants;
    }

    // ---------------------------------------------------------------------
    // The unregister transaction
    // ---------------------------------------------------------------------

    /** Whether BeginUnregister goes through on this container. */
    ghost predicate Accepts()
      reads this, variants
    {
      active && !unregistering && forall v :: v in variants ==> v.Accepts()
    }

    /** All or nothing: lock every listed leaf, or lock none and change nothing. */
    method BeginUnregister() returns (ok: bool)
      requires !held && Once(multiset(variants)) && forall v :: v in variants ==> !v.held
      modifies this`held, this`unregistering, this`lockedVariants, variants`held, variants`unregistering
      ensures ok == old(Accepts())
      ensures ok ==> held && unregistering && lockedVariants == variants
      ensures ok ==> forall v :: v in variants ==> v.held && v.unregistering
      ensures !ok ==> !held && unregistering == old(unregistering)
      ensures !ok ==> forall v :: v in variants ==> !v.held && v.unregistering == old(v.unregistering)
      ensures !ok ==> lockedVariants == if old(active && !unregistering) then [] else old(lockedVariants)
    {
      held := true;
      if !active || unregistering {
        held := false;
        return false;
      }
      unregistering := true;
      lockedVariants := variants;
      var count := 0;
      var refused := false;
      while count < |lockedVariants| && !refused
        invariant held && unregistering && count <= |variants| && lockedVariants == variants
        invariant forall k :: 0 <= k < count ==>
                    variants[k].held && variants[k].unregistering && old(variants[k].Accepts())
        invariant forall k :: count <= k < |variants| ==>
                    !variants[k].held && variants[k].unregistering == old(variants[k].unregistering)
        invariant refused ==> count < |variants| && !old(variants[count].Accepts())
        decreases |variants| - count, !refused
      {
        Apart(variants, count);
        var accepted := variants[count].BeginUnregister();
        if accepted {
          count := count + 1;
        } else {
          refused := true;
        }
      }
      if refused {
        assert !old(Accepts()) by { assert variants[count] in variants; }
        while count > 0
          invariant count <= |variants| && lockedVariants == variants
          invariant forall k :: 0 <= k < count ==>
                      variants[k].held && variants[k].unregistering && old(variants[k].Accepts())
          invariant forall k :: count <= k < |variants| ==>
                      !variants[k].held && variants[k].unregistering == old(variants[k].unregistering)
        {
          count := count - 1;
          Apart(variants, count);
          variants[count].EndUnregister();
        }
        lockedVariants := [];
        unregistering := false;
        held := false;
        return false;
      }
      return true;
    }

    /** Release exactly the leaves that BeginUnregister locked. */
    method EndUnregister()
      requires held && Once(multiset(lockedVariants))
      modifies this`held, this`unregistering, this`lockedVariants, lockedVariants`held, lockedVariants`unregistering
      ensures !held && !unregistering && lockedVariants == []
      ensures forall v :: v in old(lockedVariants) ==> !v.held && !v.unregistering
    {
      if lockedVariants != [] {
        for i := 0 to |lockedVariants|
          invariant lockedVariants == old(lockedVariants)
          invariant forall k :: 0 <= k < i ==> !lockedVariants[k].held && !lockedVariants[k].unregistering
        {
          lockedVariants[i].EndUnregister();
        }
        lockedVariants := [];
        unregistering := false;
        held := false;
        return;
      }
      unregistering := false;
      held := false;
    }

    method AnyLoaded() returns (loaded: bool)
      ensures loaded == exists v :: v in variants && v.IsLoaded()
    {
      for i := 0 to |variants|
        invariant forall k :: 0 <= k < i ==> !variants[k].IsLoaded()
      {
        if variants[i].IsLoaded() {
          return true;
        }
      }
      return false;
    }

    /** What may be unregistered under a name: nothing that is loaded, and a variant only if it is listed. */
    ghost predicate MayUnregister(name: string)
      reads this`selected, this`variants, variants`active, variants`loaded
    {
      if name == selected.info.alias then forall v :: v in variants ==> !v.IsLoaded()
      else
        var i := FindId(variants, name, 0);
        i < |variants| && !variants[i].IsLoaded()
    }

    method CheckUnregister(name: string) returns (ok: bool)
      ensures ok == MayUnregister(name)
    {
      if name == selected.info.alias {
        var loaded := AnyLoaded();
        return !loaded;
      }
      var i := FindVariant(name);
      return i < |variants| && !variants[i].IsLoaded();
    }

    /** CommitUnregister: deactivate the whole container or retire one variant. */
    method CommitUnregister(name: string, ghost env: Env)
      requires Once(multiset(variants)) && Deactivated() && CachedAgree(variants, env)
      modifies this`variants, this`retired, this`selected, this`explicit, this`inactive, this`active, variants`active
      ensures View() == if name == old(selected.info.alias)
                        then old(View()).(inactive := old(inactive) + ToSet(old(variants)))
                        else RetireStep(old(View()), name, env)
      ensures name != old(selected.info.alias) ==> RetireOutcome(old(View()), View(), name, env)
    {
      hide Once, CachedAgree, RetireStep, RetireOutcome, ToSet;
      if name == selected.info.alias {
        Deactivate();
      } else {
        var remain := RetireVariant(name, env);
      }
    }

    /**
      The unregister operation of the local catalog for an alias or one variant;
      `persisted` tells whether the registration file could be rewritten.
    */
    method Unregister(name: string, persisted: bool, ghost env: Env) returns (ok: bool)
      requires !held && Once(multiset(variants)) && Deactivated() && CachedAgree(variants, env)
      requires forall v :: v in variants ==> !v.held
      modifies this, variants`held, variants`unregistering, variants`active
      ensures ok == old(Accepts() && MayUnregister(name) && persisted)
      ensures !ok ==> View() == old(View()) && active == old(active)
      ensures ok ==> View() == if name == old(selected.info.alias)
                               then old(View()).(inactive := old(inactive) + ToSet(old(variants)))
                               else RetireStep(old(View()), name, env)
      ensures ok && name != old(selected.info.alias) ==> RetireOutcome(old(View()), View(), name, env)
      ensures !held && forall v :: v in old(variants) ==> !v.held
      ensures unregistering == old(unregistering && !ok)
    {
      hide Once, CachedAgree, RetireStep, RetireOutcome, ToSet;
      ok := BeginUnregister();
      if !ok {
        return false;
      }
      ok := CheckUnregister(name);
      ok := ok && persisted;
      if ok {
        CommitUnregister(name, env);
      }
      EndUnregister();
    }
  }
}
