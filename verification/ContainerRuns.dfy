/**
  Runs of a container: adding, reconciling, retiring, selecting and defaulting in
  any order, with any answers of file system and load manager in between.
*/
module ContainerRuns {
  import opened ModelInfoJson
  import opened VariantOrder
  import opened ModelLeaf
  import opened ContainerSpec

  /**
    A container.  `inactive` are its deactivated leaves and `choice` is the
    history of SelectVariant: the leaf chosen last.
  */
  datatype State = State(
    variants: seq<Leaf>,
    retired: seq<Leaf>,
    selected: Leaf,
    explicit: bool,
    eligibleDefault: bool,
    inactive: set<Leaf>,
    choice: Option<Leaf>)

  /** MakeContainer */
  function NewContainer(first: Leaf): State { State([first], [], first, false, true, {}, None) }

  /** AddVariant */
  function AddStep(s: State, leaf: Leaf): State {
    var n := InsertionPoint(InfosOf(s.variants), leaf.info);
    s.(variants := s.variants[..n] + [leaf] + s.variants[n..])
  }

  /** The first leaf of a list that satisfies p, or its length. */
  function FirstFrom(leaves: seq<Leaf>, p: set<Leaf>, from: nat): (i: nat)
    requires from <= |leaves|
    ensures from <= i <= |leaves|
    ensures forall k :: from <= k < i ==> leaves[k] !in p
    ensures i < |leaves| ==> leaves[i] in p
    decreases |leaves| - from
  {
    if from == |leaves| || leaves[from] in p then from else FirstFrom(leaves, p, from + 1)
  }

  function CachedOf(leaves: seq<Leaf>, env: Env): set<Leaf> { set l | l in leaves && ViewOf(env, l).cached }

  /** The first cached variant, else the first. */
  function FirstCached(variants: seq<Leaf>, env: Env): Leaf
    requires variants != []
  {
    var i := FirstFrom(variants, CachedOf(variants, env), 0);
    if i < |variants| then variants[i] else variants[0]
  }

  predicate InUse(leaf: Leaf, env: Env) { ViewOf(env, leaf).pinned || ViewOf(env, leaf).loaded }

  /** TryReconcileVariants, where std::sort produced `order`. */
  function ReconcileStep(s: State, incoming: seq<Leaf>, env: Env, order: seq<Leaf>): State
    requires order != []
  {
    var dropped := Match(s.variants, incoming, env).dropped;
    var preserve := s.explicit || InUse(s.selected, env);
    var retained := s.selected in order;
    s.(variants := order, retired := s.retired + dropped,
       selected := if preserve && retained then s.selected else FirstCached(order, env),
       explicit := s.explicit && retained,
       inactive := s.inactive + ToSet(dropped))
  }

  /** The lists that std::sort may leave behind. */
  ghost predicate SortOutcome(s: State, incoming: seq<Leaf>, env: Env, order: seq<Leaf>) {
    var m := Match(s.variants, incoming, env);
    multiset(order) == multiset(m.kept) + multiset(m.added) && Sorted(InfosOf(order))
  }

  function FindId(variants: seq<Leaf>, id: string, from: nat): (i: nat)
    requires from <= |variants|
    ensures from <= i <= |variants|
    ensures forall k :: from <= k < i ==> variants[k].info.modelId != id
    ensures i < |variants| ==> variants[i].info.modelId == id
    decreases |variants| - from
  {
    if from == |variants| || variants[from].info.modelId == id then from else FindId(variants, id, from + 1)
  }

  /** RetireVariant */
  function RetireStep(s: State, id: string, env: Env): State {
    var i := FindId(s.variants, id, 0);
    if i == |s.variants| then s
    else
      var leaf, rest := s.variants[i], Without(s.variants, i);
      var t := s.(variants := rest, retired := s.retired + [leaf], inactive := s.inactive + {leaf});
      if rest == [] then t.(selected := leaf, explicit := false)
      else if s.selected == leaf then t.(selected := FirstCached(rest, env), explicit := false)
      else t
  }

  /** SelectVariant; a leaf that is not listed is refused. */
  function SelectStep(s: State, leaf: Leaf): State {
    if leaf in s.variants then s.(selected := leaf, explicit := true, choice := Some(leaf)) else s
  }

  /** The loop of SelectDefaultVariantLocked. */
  function DefaultChoice(variants: seq<Leaf>, eligible: set<Leaf>, env: Env): Leaf
    requires variants != []
  {
    var c := FirstFrom(variants, eligible * CachedOf(variants, env), 0);
    var e := FirstFrom(variants, eligible, 0);
    if c < |variants| then variants[c] else if e < |variants| then variants[e] else variants[0]
  }

  /** SelectDefaultVariantLocked, with the leaf that a Load is working on. */
  function DefaultStep(s: State, eligible: set<Leaf>, preserve: bool, busy: Option<Leaf>, env: Env): State
    requires s.variants != []
  {
    var t := s.(eligibleDefault := FirstFrom(s.variants, eligible, 0) < |s.variants|);
    var working := busy == Some(s.selected) || ViewOf(env, s.selected).downloading;
    var retained := s.explicit || working || InUse(s.selected, env);
    if preserve && retained then t
    else t.(selected := DefaultChoice(s.variants, eligible, env), explicit := false)
  }

  datatype Action =
    | Add(leaf: Leaf)
    | Reconcile(incoming: seq<Leaf>, order: seq<Leaf>, env: Env)
    | Retire(id: string, env: Env)
    | Select(leaf: Leaf)
    | Default(eligible: set<Leaf>, preserve: bool, busy: Option<Leaf>, env: Env)
    | DeactivateAll

  function Placed(s: State): multiset<Leaf> { multiset(s.variants) + multiset(s.retired) }

  /**
    What the operations need: new leaves are owned by nobody, a fresh listing is not
    empty, and a default is chosen from at least one variant.
  */
  ghost predicate Enabled(s: State, a: Action) {
    match a
    case Add(leaf) => leaf !in Placed(s)
    case Reconcile(incoming, order, env) =>
      && incoming != [] && Once(multiset(incoming)) && (forall l :: l in incoming ==> l !in Placed(s))
      && order != [] && SortOutcome(s, incoming, env, order)
    case Default(_, _, _, _) => s.variants != []
    case _ => true
  }

  ghost function Step(s: State, a: Action): State
    requires Enabled(s, a)
  {
    match a
    case Add(leaf) => AddStep(s, leaf)
    case Reconcile(incoming, order, env) => ReconcileStep(s, incoming, env, order)
    case Retire(id, env) => RetireStep(s, id, env)
    case Select(leaf) => SelectStep(s, leaf)
    case Default(eligible, preserve, busy, env) => DefaultStep(s, eligible, preserve, busy, env)
    case DeactivateAll => s.(inactive := s.inactive + ToSet(s.variants))
  }

  ghost predicate Legal(s: State, run: seq<Action>)
    decreases |run|
  {
    run == [] || (Enabled(s, run[0]) && Legal(Step(s, run[0]), run[1..]))
  }

  ghost function Run(s: State, run: seq<Action>): State
    requires Legal(s, run)
    decreases |run|
  {
    if run == [] then s else Run(Step(s, run[0]), run[1..])
  }

  // ---------------------------------------------------------------------
  // What every operation keeps
  // ---------------------------------------------------------------------

  /** Every leaf lives in one place, retired leaves are inactive. */
  ghost predicate HandlesInv(s: State) {
    Once(Placed(s)) && forall l :: l in s.retired ==> l in s.inactive
  }

  /**
    The selection is listed while anything is, and explicit only as the last choice.
    Kept by every operation that adds no variant to an emptied container.
  */
  ghost predicate SelectionInv(s: State) {
    && s.selected in Placed(s)
    && (s.variants != [] ==> s.selected in s.variants)
    && (s.explicit ==> s.selected in s.variants && s.choice == Some(s.selected))
  }

  /** What every operation keeps. */
  ghost predicate ListsInv(s: State) {
    HandlesInv(s) && Sorted(InfosOf(s.variants))
  }

  ghost predicate AddsToListed(s: State, a: Action) { a.Add? ==> s.variants != [] }

  lemma NewContainerInv(first: Leaf)
    ensures ListsInv(NewContainer(first)) && SelectionInv(NewContainer(first))
  {
    assert NewContainer(first).variants[0] == first;
  }

  lemma MultiplicityOne(m: multiset<Leaf>, leaf: Leaf)
    requires Once(m) && leaf !in m
    ensures Once(m + multiset{leaf})
  {
  }

  lemma InsertBag(s: seq<Leaf>, n: nat, leaf: Leaf)
    requires n <= |s|
    ensures multiset(s[..n] + [leaf] + s[n..]) == multiset(s) + multiset{leaf}
  {
    assert s == s[..n] + s[n..];
  }

  lemma InsertInfos(s: seq<Leaf>, leaf: Leaf)
    ensures var n := InsertionPoint(InfosOf(s), leaf.info);
            InfosOf(s[..n] + [leaf] + s[n..]) == Insert(InfosOf(s), leaf.info)
  {
    hide InsertionPoint;
  }

  lemma AddKeepsLists(s: State, leaf: Leaf)
    requires ListsInv(s) && leaf !in Placed(s)
    ensures ListsInv(AddStep(s, leaf))
  {
    InsertInfos(s.variants, leaf);
    InsertKeepsSorted(InfosOf(s.variants), leaf.info);
    MultiplicityOne(Placed(s), leaf);
    AddPlaces(s, leaf);
    hide Sorted, InsertionPoint, Once, Placed;
  }

  lemma AddKeepsSelection(s: State, leaf: Leaf)
    requires SelectionInv(s) && s.variants != []
    ensures SelectionInv(AddStep(s, leaf))
  {
    AddPlaces(s, leaf);
    InsertBag(s.variants, InsertionPoint(InfosOf(s.variants), leaf.info), leaf);
    hide InsertionPoint;
    assert s.selected in multiset(s.variants);
    assert s.selected in multiset(AddStep(s, leaf).variants);
  }

  lemma FirstCachedIsListed(variants: seq<Leaf>, env: Env)
    requires variants != []
    ensures FirstCached(variants, env) in variants
  {
  }

  /** Reconciling only brings new leaves in; dropped ones move to the retired list. */
  lemma ReconcilePlaces(s: State, incoming: seq<Leaf>, env: Env, order: seq<Leaf>)
    requires order != [] && SortOutcome(s, incoming, env, order)
    ensures var m := Match(s.variants, incoming, env);
            && Placed(ReconcileStep(s, incoming, env, order)) == Placed(s) + multiset(m.added)
            && multiset(m.added) <= multiset(incoming)
  {
    hide Match, Sorted, FirstCached, InUse;
    MatchedLeaves(s.variants, incoming, env);
    var m := Match(s.variants, incoming, env);
    assert multiset(s.retired + m.dropped) == multiset(s.retired) + multiset(m.dropped);
  }

  lemma OnceTogether(m: multiset<Leaf>, added: multiset<Leaf>, incoming: multiset<Leaf>)
    requires Once(m) && Once(incoming) && added <= incoming && forall l :: l in incoming ==> l !in m
    ensures Once(m + added)
  {
    forall l | l in m + added
      ensures (m + added)[l] == 1
    {
      if l in added {
        assert l in incoming;
        assert added[l] <= incoming[l] == 1;
      }
    }
  }

  lemma ReconcileKeepsHandles(s: State, incoming: seq<Leaf>, env: Env, order: seq<Leaf>)
    requires HandlesInv(s) && Enabled(s, Reconcile(incoming, order, env))
    ensures HandlesInv(ReconcileStep(s, incoming, env, order))
  {
    ReconcilePlaces(s, incoming, env, order);
    var m := Match(s.variants, incoming, env);
    forall l | l in multiset(incoming)
      ensures l !in Placed(s)
    {
      assert l in incoming;
    }
    OnceTogether(Placed(s), multiset(m.added), multiset(incoming));
    hide Match, SortOutcome, Placed, FirstCached, InUse;
  }

  lemma ReconcileKeepsSelection(s: State, incoming: seq<Leaf>, env: Env, order: seq<Leaf>)
    requires SelectionInv(s) && order != []
    ensures SelectionInv(ReconcileStep(s, incoming, env, order))
  {
    hide Match, FirstCached, InUse;
    FirstCachedIsListed(order, env);
    var t := ReconcileStep(s, incoming, env, order);
    assert t.selected in order;
    assert t.selected in multiset(order);
  }

  lemma MoveOne(variants: seq<Leaf>, retired: seq<Leaf>, i: nat)
    requires i < |variants|
    ensures multiset(Without(variants, i)) + multiset(retired + [variants[i]]) == multiset(variants) + multiset(retired)
  {
    WithoutBag(variants, i);
    hide Without;
  }

  lemma RetirePlaces(s: State, id: string, env: Env)
    ensures Placed(RetireStep(s, id, env)) == Placed(s)
  {
    hide FirstCached, Without, FindId;
    var i := FindId(s.variants, id, 0);
    if i < |s.variants| { MoveOne(s.variants, s.retired, i); }
  }

  lemma RetireKeepsHandles(s: State, id: string, env: Env)
    requires HandlesInv(s)
    ensures HandlesInv(RetireStep(s, id, env))
  {
    RetirePlaces(s, id, env);
    hide Placed, FirstCached, Without;
  }

  lemma WithoutIsSorted(s: seq<Leaf>, i: nat)
    requires i < |s| && Sorted(InfosOf(s))
    ensures Sorted(InfosOf(Without(s, i)))
  {
    hide Better;
    forall a, b | 0 <= a < b < |s| - 1
      ensures !Better(InfosOf(Without(s, i))[b], InfosOf(Without(s, i))[a])
    {
      var a', b' := if a < i then a else a + 1, if b < i then b else b + 1;
      assert !Better(InfosOf(s)[b'], InfosOf(s)[a']);
    }
  }

  lemma InWithout<T>(s: seq<T>, i: nat, x: T)
    requires i < |s| && x in s && x != s[i]
    ensures x in Without(s, i)
  {
    var k :| 0 <= k < |s| && s[k] == x;
    assert Without(s, i)[if k < i then k else k - 1] == x;
  }

  lemma RetireKeepsSelection(s: State, id: string, env: Env)
    requires SelectionInv(s)
    ensures SelectionInv(RetireStep(s, id, env))
  {
    var i := FindId(s.variants, id, 0);
    if i < |s.variants| {
      RetirePlaces(s, id, env);
      var rest := Without(s.variants, i);
      if s.selected in s.variants && s.selected != s.variants[i] { InWithout(s.variants, i, s.selected); }
      if rest != [] { FirstCachedIsListed(rest, env); }
      assert s.variants[i] in multiset(s.variants);
      hide FirstCached, Without, FindId;
      var t := RetireStep(s, id, env);
      if t.selected in rest { assert t.selected in multiset(rest); }
    }
  }

  lemma DefaultIsListed(variants: seq<Leaf>, eligible: set<Leaf>, env: Env)
    requires variants != []
    ensures DefaultChoice(variants, eligible, env) in variants
  {
  }

  lemma RetireKeepsSorted(s: State, id: string, env: Env)
    requires Sorted(InfosOf(s.variants))
    ensures Sorted(InfosOf(RetireStep(s, id, env).variants))
  {
    hide FirstCached, Without, Sorted;
    var i := FindId(s.variants, id, 0);
    if i < |s.variants| { WithoutIsSorted(s.variants, i); }
  }

  lemma StepKeepsLists(s: State, a: Action)
    requires ListsInv(s) && Enabled(s, a)
    ensures ListsInv(Step(s, a))
  {
    match a
    case Add(leaf) =>
      hide ListsInv, AddStep;
      AddKeepsLists(s, leaf);
    case Reconcile(incoming, order, env) =>
      hide HandlesInv, FirstCached, InUse, Match, Sorted;
      ReconcileKeepsHandles(s, incoming, env, order);
    case Retire(id, env) =>
      hide HandlesInv, RetireStep, Sorted;
      RetireKeepsHandles(s, id, env);
      RetireKeepsSorted(s, id, env);
    case Select(leaf) =>
      hide Sorted, Once;
    case Default(eligible, preserve, busy, env) =>
      hide Sorted, Once, DefaultChoice, InUse, FirstFrom;
    case DeactivateAll =>
      hide Sorted, Once;
  }

  lemma DefaultKeepsSelection(s: State, eligible: set<Leaf>, preserve: bool, busy: Option<Leaf>, env: Env)
    requires SelectionInv(s) && s.variants != []
    ensures SelectionInv(DefaultStep(s, eligible, preserve, busy, env))
  {
    DefaultIsListed(s.variants, eligible, env);
    hide DefaultChoice, InUse, FirstFrom;
    assert DefaultChoice(s.variants, eligible, env) in multiset(s.variants);
  }

  lemma StepKeepsSelection(s: State, a: Action)
    requires SelectionInv(s) && Enabled(s, a) && AddsToListed(s, a)
    ensures SelectionInv(Step(s, a))
  {
    match a
    case Add(leaf) =>
      hide SelectionInv, AddStep;
      AddKeepsSelection(s, leaf);
    case Reconcile(incoming, order, env) =>
      hide SelectionInv, ReconcileStep, SortOutcome;
      ReconcileKeepsSelection(s, incoming, env, order);
    case Retire(id, env) =>
      hide SelectionInv, RetireStep;
      RetireKeepsSelection(s, id, env);
    case Select(leaf) =>
      assert leaf in s.variants ==> leaf in multiset(s.variants);
    case Default(eligible, preserve, busy, env) =>
      hide SelectionInv, DefaultStep;
      DefaultKeepsSelection(s, eligible, preserve, busy, env);
    case DeactivateAll =>
  }

  /** Handles and order, over every run. */
  lemma {:induction false} RunKeepsLists(s: State, run: seq<Action>)
    requires ListsInv(s) && Legal(s, run)
    ensures ListsInv(Run(s, run))
    decreases |run|
  {
    hide ListsInv, Enabled, Step;
    if run != [] {
      StepKeepsLists(s, run[0]);
      RunKeepsLists(Step(s, run[0]), run[1..]);
    }
  }

  ghost predicate AddsToListedRun(s: State, run: seq<Action>)
    requires Legal(s, run)
    decreases |run|
  {
    run == [] || (AddsToListed(s, run[0]) && AddsToListedRun(Step(s, run[0]), run[1..]))
  }

  /** And the selection, over every run that adds no variant to an emptied container. */
  lemma {:induction false} RunKeepsSelection(s: State, run: seq<Action>)
    requires SelectionInv(s) && Legal(s, run) && AddsToListedRun(s, run)
    ensures SelectionInv(Run(s, run))
    decreases |run|
  {
    hide SelectionInv, Enabled, Step, AddsToListed;
    if run != [] {
      StepKeepsSelection(s, run[0]);
      RunKeepsSelection(Step(s, run[0]), run[1..]);
    }
  }

  /** The selection invariant survives AddVariant exactly on a container that lists something. */
  lemma AddNeedsVariants(s: State, leaf: Leaf)
    requires SelectionInv(s) && leaf !in Placed(s)
    ensures SelectionInv(AddStep(s, leaf)) <==> s.variants != []
  {
    if s.variants != [] {
      AddKeepsSelection(s, leaf);
    } else {
      assert AddStep(s, leaf).variants == [leaf];
    }
  }

  /** Retiring the last variant and adding another one leaves a retired leaf selected. */
  lemma EmptiedContainerKeepsRetiredSelection(first: Leaf, second: Leaf)
    requires first != second
    ensures var t := AddStep(RetireStep(NewContainer(first), first.info.modelId, map[]), second);
            t.variants == [second] && t.selected == first && first in t.retired
  {
    hide InsertionPoint;
    var s := NewContainer(first);
    assert s.variants[0] == first;
    assert FindId(s.variants, first.info.modelId, 0) == 0;
    assert Without(s.variants, 0) == [];
  }

  // ---------------------------------------------------------------------
  // Handles over whole runs
  // ---------------------------------------------------------------------

  lemma AddPlaces(s: State, leaf: Leaf)
    ensures Placed(AddStep(s, leaf)) == Placed(s) + multiset{leaf}
  {
    hide InsertionPoint;
    InsertBag(s.variants, InsertionPoint(InfosOf(s.variants), leaf.info), leaf);
  }

  lemma StepKeepsRetired(s: State, a: Action)
    requires Enabled(s, a)
    ensures s.retired <= Step(s, a).retired && s.inactive <= Step(s, a).inactive
  {
    hide Match, FirstCached, InUse, FindId, Without, DefaultChoice, InsertionPoint, Sorted, Placed, Once;
  }

  lemma StepKeepsPlaces(s: State, a: Action)
    requires Enabled(s, a)
    ensures Placed(s) <= Placed(Step(s, a))
  {
    match a
    case Add(leaf) =>
      hide Placed, AddStep;
      AddPlaces(s, leaf);
    case Reconcile(incoming, order, env) =>
      hide Placed, ReconcileStep, SortOutcome;
      ReconcilePlaces(s, incoming, env, order);
    case Retire(id, env) =>
      hide Placed, RetireStep;
      RetirePlaces(s, id, env);
    case Select(leaf) =>
    case Default(eligible, preserve, busy, env) =>
      hide DefaultChoice, InUse;
    case DeactivateAll =>
  }

  /** Nothing placed is ever lost, and what is retired stays retired, in order, and inactive. */
  lemma {:induction false} RunKeepsHandles(s: State, run: seq<Action>)
    requires Legal(s, run)
    ensures var t := Run(s, run); Placed(s) <= Placed(t) && s.retired <= t.retired && s.inactive <= t.inactive
    decreases |run|
  {
    hide Enabled, Step, Placed;
    if run != [] {
      StepKeepsPlaces(s, run[0]);
      StepKeepsRetired(s, run[0]);
      RunKeepsHandles(Step(s, run[0]), run[1..]);
    }
  }

  /** A retired leaf never comes back. */
  lemma RetiredForGood(s: State, run: seq<Action>, leaf: Leaf)
    requires ListsInv(s) && Legal(s, run) && leaf in s.retired
    ensures var t := Run(s, run); leaf in t.retired && leaf !in t.variants && leaf in t.inactive
  {
    RunKeepsLists(s, run);
    RunKeepsHandles(s, run);
    hide Run, Legal, Sorted, SelectionInv, Once, Placed;
    RetiredIsNotListed(Run(s, run), leaf);
  }

  lemma RetiredIsNotListed(s: State, leaf: Leaf)
    requires Once(Placed(s)) && leaf in s.retired
    ensures leaf !in s.variants
  {
    assert leaf in multiset(s.retired) && leaf in Placed(s);
    assert leaf in s.variants ==> leaf in multiset(s.variants);
  }

  // ---------------------------------------------------------------------
  // Reconciling refines replacing the whole list
  // ---------------------------------------------------------------------

  lemma TakeOut(a: seq<Leaf>, b: seq<Leaf>) returns (i: nat)
    requires a != [] && multiset(a) == multiset(b)
    ensures i < |b| && b[i] == a[0] && multiset(a[1..]) == multiset(Without(b, i))
  {
    FirstAndRest(a);
    assert a[0] in multiset(b);
    i :| 0 <= i < |b| && b[i] == a[0];
    WithoutBag(b, i);
    hide Without;
    assert multiset(a[1..]) == multiset(a) - multiset{a[0]};
    assert multiset(Without(b, i)) == multiset(b) - multiset{a[0]};
  }

  lemma {:induction false} RowsPermute(a: seq<Leaf>, b: seq<Leaf>, env: Env)
    requires multiset(a) == multiset(b)
    ensures multiset(RowsOf(a, env)) == multiset(RowsOf(b, env))
    decreases |a|
  {
    hide RowOf, Without;
    if a != [] {
      var i := TakeOut(a, b);
      RowsPermute(a[1..], Without(b, i), env);
      RowsWithout(b, i, env);
      RowsPrepend(a[0], a[1..], env);
      assert a == [a[0]] + a[1..];
    } else {
      assert |b| == |multiset(b)| == 0;
      assert RowsOf(a, env) == RowsOf(b, env);
    }
  }

  lemma RowsTogether(a: seq<Leaf>, b: seq<Leaf>, env: Env)
    ensures multiset(RowsOf(a + b, env)) == multiset(RowsOf(a, env)) + multiset(RowsOf(b, env))
  {
    hide RowOf;
    assert RowsOf(a + b, env) == RowsOf(a, env) + RowsOf(b, env);
  }

  /** Afterwards the container lists exactly the fresh rows, best first. */
  lemma ReconcileReplaces(s: State, incoming: seq<Leaf>, env: Env, order: seq<Leaf>)
    requires order != [] && SortOutcome(s, incoming, env, order)
    ensures var t := ReconcileStep(s, incoming, env, order);
            multiset(RowsOf(t.variants, env)) == multiset(RowsOf(incoming, env)) && Sorted(InfosOf(t.variants))
  {
    hide Match, Sorted, RowOf, FirstCached, InUse;
    var m := Match(s.variants, incoming, env);
    MatchedRows(s.variants, incoming, env);
    RowsTogether(m.kept, m.added, env);
    assert multiset(m.kept + m.added) == multiset(m.kept) + multiset(m.added);
    RowsPermute(order, m.kept + m.added, env);
  }

  /** With distinct ids it lists what a container built from scratch would list. */
  lemma ReconcileMatchesFreshContainer(s: State, incoming: seq<Leaf>, env: Env, order: seq<Leaf>)
    requires order != [] && SortOutcome(s, incoming, env, order) && DistinctIds(InfosOf(incoming))
    ensures RowsOf(ReconcileStep(s, incoming, env, order).variants, env) == AddAll(RowsOf(incoming, env))
  {
    hide Sorted, DistinctIds, FirstCached, InUse, RowOf, Match, SortOutcome;
    ReconcileReplaces(s, incoming, env, order);
    var rows := RowsOf(incoming, env);
    SameInfos(incoming, env);
    SameInfos(order, env);
    AddAllSorts(rows);
    DistinctIdsPermute(rows, RowsOf(order, env));
    SortedIsUnique(RowsOf(order, env), AddAll(rows));
  }

  lemma SameInfos(leaves: seq<Leaf>, env: Env)
    ensures Infos(RowsOf(leaves, env)) == InfosOf(leaves)
  {
  }

  // ---------------------------------------------------------------------
  // Variants and choices that stay listed
  // ---------------------------------------------------------------------

  /** Model ids stay distinct. */
  ghost predicate Tidy(s: State, a: Action) {
    match a
    case Add(leaf) => forall v :: v in s.variants ==> v.info.modelId != leaf.info.modelId
    case Reconcile(incoming, _, _) => DistinctIds(InfosOf(incoming))
    case _ => true
  }

  /** The operation goes on listing the leaf. */
  ghost predicate Lists(a: Action, leaf: Leaf) {
    match a
    case Reconcile(incoming, _, env) => RowOf(leaf, env) in RowsOf(incoming, env)
    case Retire(id, _) => id != leaf.info.modelId
    case _ => true
  }

  /** The operation does not ask for another selection. */
  ghost predicate Undisturbed(s: State, a: Action, leaf: Leaf) {
    match a
    case Select(other) => other == leaf || other !in s.variants
    case Default(_, preserve, _, _) => preserve
    case _ => true
  }

  ghost predicate TidyRun(s: State, run: seq<Action>)
    requires Legal(s, run)
    decreases |run|
  {
    run == [] || (Tidy(s, run[0]) && TidyRun(Step(s, run[0]), run[1..]))
  }

  ghost predicate UndisturbedRun(s: State, run: seq<Action>, leaf: Leaf)
    requires Legal(s, run)
    decreases |run|
  {
    run == [] || (Undisturbed(s, run[0], leaf) && UndisturbedRun(Step(s, run[0]), run[1..], leaf))
  }

  ghost predicate ListsAll(run: seq<Action>, leaf: Leaf) { forall i :: 0 <= i < |run| ==> Lists(run[i], leaf) }

  lemma AddKeepsDistinct(s: State, leaf: Leaf)
    requires DistinctIds(InfosOf(s.variants)) && forall v :: v in s.variants ==> v.info.modelId != leaf.info.modelId
    ensures DistinctIds(InfosOf(AddStep(s, leaf).variants))
  {
    hide InsertionPoint;
    var n := InsertionPoint(InfosOf(s.variants), leaf.info);
    var r := AddStep(s, leaf).variants;
    forall i, j | 0 <= i < j < |r|
      ensures r[i].info.modelId != r[j].info.modelId
    {
      var i', j' := if i < n then i else i - 1, if j < n then j else j - 1;
      if i != n && j != n {
        assert InfosOf(s.variants)[i'].modelId != InfosOf(s.variants)[j'].modelId;
        assert r[i] == s.variants[i'] && r[j] == s.variants[j'];
      } else if i == n {
        assert r[j] == s.variants[j'];
      } else {
        assert r[i] == s.variants[i'];
      }
    }
  }

  lemma WithoutIsDistinct(s: seq<Leaf>, k: nat)
    requires k < |s| && DistinctIds(InfosOf(s))
    ensures DistinctIds(InfosOf(Without(s, k)))
  {
    forall i, j | 0 <= i < j < |s| - 1
      ensures InfosOf(Without(s, k))[i].modelId != InfosOf(Without(s, k))[j].modelId
    {
      assert InfosOf(s)[if i < k then i else i + 1].modelId != InfosOf(s)[if j < k then j else j + 1].modelId;
    }
  }

  lemma StepKeepsDistinct(s: State, a: Action)
    requires Enabled(s, a) && Tidy(s, a) && DistinctIds(InfosOf(s.variants))
    ensures DistinctIds(InfosOf(Step(s, a).variants))
  {
    match a
    case Add(leaf) => AddKeepsDistinct(s, leaf);
    case Reconcile(incoming, order, env) =>
      hide DistinctIds, Sorted, FirstCached, InUse, RowOf, Match;
      ReconcileReplaces(s, incoming, env, order);
      SameInfos(incoming, env);
      SameInfos(order, env);
      DistinctIdsPermute(RowsOf(incoming, env), RowsOf(order, env));
    case Retire(id, env) =>
      hide DistinctIds, FirstCached;
      var i := FindId(s.variants, id, 0);
      if i < |s.variants| { WithoutIsDistinct(s.variants, i); }
    case Select(leaf) =>
    case Default(eligible, preserve, busy, env) =>
    case DeactivateAll =>
  }

  lemma NoneBefore(variants: seq<Leaf>, j: nat, env: Env)
    requires j < |variants| && DistinctIds(InfosOf(variants))
    ensures Count(variants[..j], RowOf(variants[j], env), env) == 0
  {
    var rows := RowsOf(variants[..j], env);
    forall i | 0 <= i < j
      ensures rows[i] != RowOf(variants[j], env)
    {
      assert InfosOf(variants)[i].modelId != InfosOf(variants)[j].modelId;
    }
  }

  lemma OncePart(m: multiset<Leaf>, n: multiset<Leaf>)
    requires Once(m + n)
    ensures Once(m)
  {
    forall l | l in m
      ensures m[l] == 1
    {
      assert l in m + n;
    }
  }

  lemma ReconcileKeepsListed(s: State, incoming: seq<Leaf>, env: Env, order: seq<Leaf>, leaf: Leaf)
    requires Once(Placed(s)) && DistinctIds(InfosOf(s.variants)) && SortOutcome(s, incoming, env, order)
    requires leaf in s.variants && RowOf(leaf, env) in RowsOf(incoming, env)
    ensures leaf in order
  {
    var j :| 0 <= j < |s.variants| && s.variants[j] == leaf;
    OncePart(multiset(s.variants), multiset(s.retired));
    KeptWhenListed(s.variants, incoming, env, j);
    NoneBefore(s.variants, j, env);
    hide Match, DistinctIds, Once, Sorted, RowOf;
    var m := Match(s.variants, incoming, env);
    assert leaf in m.kept;
    assert leaf in multiset(m.kept);
    assert leaf in multiset(order);
  }

  lemma StepKeepsListed(s: State, a: Action, leaf: Leaf)
    requires Once(Placed(s)) && Enabled(s, a) && DistinctIds(InfosOf(s.variants))
    requires leaf in s.variants && Lists(a, leaf)
    ensures leaf in Step(s, a).variants
  {
    match a
    case Add(new_) => InsertBag(s.variants, InsertionPoint(InfosOf(s.variants), new_.info), new_);
    case Reconcile(incoming, order, env) =>
      hide Match, FirstCached, InUse, Once, Placed, SortOutcome;
      ReconcileKeepsListed(s, incoming, env, order, leaf);
    case Retire(id, env) =>
      hide FirstCached;
      var i := FindId(s.variants, id, 0);
      if i < |s.variants| { InWithout(s.variants, i, leaf); }
    case Select(other) =>
    case Default(eligible, preserve, busy, env) =>
    case DeactivateAll =>
  }

  /** With distinct ids, a leaf whose metadata and path stay listed stays the same object. */
  lemma {:induction false} ListedLeafStays(s: State, run: seq<Action>, leaf: Leaf)
    requires ListsInv(s) && Legal(s, run) && DistinctIds(InfosOf(s.variants)) && TidyRun(s, run)
    requires leaf in s.variants && ListsAll(run, leaf)
    ensures leaf in Run(s, run).variants
    decreases |run|
  {
    hide ListsInv, Enabled, Step, DistinctIds, Lists, Tidy;
    if run != [] {
      InvPlaces(s);
      StepKeepsLists(s, run[0]);
      StepKeepsDistinct(s, run[0]);
      StepKeepsListed(s, run[0], leaf);
      ListedLeafStays(Step(s, run[0]), run[1..], leaf);
    }
  }

  lemma InvPlaces(s: State)
    requires ListsInv(s)
    ensures Once(Placed(s))
  {
  }

  lemma StepKeepsChoice(s: State, a: Action, leaf: Leaf)
    requires Enabled(s, a) && Undisturbed(s, a, leaf) && Lists(a, leaf)
    requires s.explicit && s.selected == leaf && leaf in Step(s, a).variants
    ensures Step(s, a).explicit && Step(s, a).selected == leaf
  {
    hide FirstCached, DefaultChoice, Match, RowOf;
  }

  /** An explicit choice survives every run that lists it and asks for no other selection. */
  lemma {:induction false} ExplicitChoiceStays(s: State, run: seq<Action>, leaf: Leaf)
    requires ListsInv(s) && Legal(s, run) && DistinctIds(InfosOf(s.variants)) && TidyRun(s, run)
    requires s.explicit && s.selected == leaf && leaf in s.variants
    requires ListsAll(run, leaf) && UndisturbedRun(s, run, leaf)
    ensures var t := Run(s, run); t.explicit && t.selected == leaf && leaf in t.variants
    decreases |run|
  {
    hide ListsInv, Enabled, Step, DistinctIds, Lists, Tidy, Undisturbed;
    if run != [] {
      InvPlaces(s);
      StepKeepsLists(s, run[0]);
      StepKeepsDistinct(s, run[0]);
      StepKeepsListed(s, run[0], leaf);
      StepKeepsChoice(s, run[0], leaf);
      ExplicitChoiceStays(Step(s, run[0]), run[1..], leaf);
    }
  }

  // ---------------------------------------------------------------------
  // The default choice
  // ---------------------------------------------------------------------

  /** The comparator's minimum of a set of variants. */
  ghost predicate IsBest(leaf: Leaf, pool: set<Leaf>) {
    leaf in pool && forall other :: other in pool && other != leaf ==> Better(leaf.info, other.info)
  }

  lemma FirstIsBest(variants: seq<Leaf>, p: set<Leaf>)
    requires Sorted(InfosOf(variants)) && DistinctIds(InfosOf(variants))
    ensures var i := FirstFrom(variants, p, 0);
            && (i < |variants| ==> IsBest(variants[i], p * (set l | l in variants)))
            && (i == |variants| ==> forall l :: l in variants ==> l !in p)
  {
    hide Better, FirstFrom;
    var i := FirstFrom(variants, p, 0);
    if i < |variants| {
      forall other | other in p * (set l | l in variants) && other != variants[i]
        ensures Better(variants[i].info, other.info)
      {
        var j :| 0 <= j < |variants| && variants[j] == other;
        assert i < j;
        assert !Better(InfosOf(variants)[j], InfosOf(variants)[i]);
        assert InfosOf(variants)[i].modelId != InfosOf(variants)[j].modelId;
        BetterIsTotal(variants[i].info, other.info);
      }
    }
  }

  /** The best eligible cached variant, else the best eligible one, else the best. */
  lemma DefaultIsBest(variants: seq<Leaf>, eligible: set<Leaf>, env: Env)
    requires variants != [] && Sorted(InfosOf(variants)) && DistinctIds(InfosOf(variants))
    ensures var all := set l | l in variants;
            var cached := set l | l in variants && l in eligible && ViewOf(env, l).cached;
            IsBest(DefaultChoice(variants, eligible, env),
                   if cached != {} then cached else if eligible * all != {} then eligible * all else all)
  {
    var all := set l | l in variants;
    var cached := set l | l in variants && l in eligible && ViewOf(env, l).cached;
    assert eligible * CachedOf(variants, env) * all == cached;
    assert all * all == all && variants[0] in all;
    FirstIsBest(variants, eligible * CachedOf(variants, env));
    FirstIsBest(variants, eligible);
    FirstIsBest(variants, all);
    hide IsBest, Sorted, DistinctIds;
    var c := FirstFrom(variants, eligible * CachedOf(variants, env), 0);
    if c == |variants| {
      assert cached == {};
      if FirstFrom(variants, eligible, 0) == |variants| {
        assert eligible * all == {};
        assert FirstFrom(variants, all, 0) == 0;
      } else {
        assert variants[FirstFrom(variants, eligible, 0)] in eligible * all;
      }
    } else {
      assert variants[c] in cached;
    }
  }

  /** What is selected anew after a reconcile or a retirement: the best cached variant, else the best. */
  lemma ReselectedIsBest(variants: seq<Leaf>, env: Env)
    requires variants != [] && Sorted(InfosOf(variants)) && DistinctIds(InfosOf(variants))
    ensures var all := set l | l in variants;
            IsBest(FirstCached(variants, env), if CachedOf(variants, env) != {} then CachedOf(variants, env) else all)
  {
    var all := set l | l in variants;
    assert CachedOf(variants, env) * all == CachedOf(variants, env) && all * all == all && variants[0] in all;
    FirstIsBest(variants, CachedOf(variants, env));
    FirstIsBest(variants, all);
    hide IsBest, Sorted, DistinctIds;
    var c := FirstFrom(variants, CachedOf(variants, env), 0);
    if c == |variants| {
      assert CachedOf(variants, env) == {};
      assert FirstFrom(variants, all, 0) == 0;
    } else {
      assert variants[c] in CachedOf(variants, env);
    }
  }

  // ---------------------------------------------------------------------
  // What each operation does
  // ---------------------------------------------------------------------

  /** The first listed leaf of a pool. */
  ghost predicate FirstIn(variants: seq<Leaf>, pool: set<Leaf>, leaf: Leaf) {
    leaf in pool &&
    exists i :: 0 <= i < |variants| && variants[i] == leaf && forall k :: 0 <= k < i ==> variants[k] !in pool
  }

  /** In a best-first list with distinct ids, the first of a pool is its best. */
  lemma FirstInIsBest(variants: seq<Leaf>, pool: set<Leaf>, leaf: Leaf)
    requires Sorted(InfosOf(variants)) && DistinctIds(InfosOf(variants)) && pool <= ToSet(variants)
    requires FirstIn(variants, pool, leaf)
    ensures IsBest(leaf, pool)
  {
    hide Better, FirstFrom;
    FirstIsBest(variants, pool);
    assert pool * (set l | l in variants) == pool;
  }

  /** The cached variants, if any, else all. */
  ghost function ReselectPool(variants: seq<Leaf>, env: Env): set<Leaf> {
    var cached := set l | l in variants && ViewOf(env, l).cached;
    if cached != {} then cached else ToSet(variants)
  }

  /** The eligible cached variants, if any, else the eligible ones, if any, else all. */
  ghost function DefaultPool(variants: seq<Leaf>, eligible: set<Leaf>, env: Env): set<Leaf> {
    var cached := set l | l in variants && l in eligible && ViewOf(env, l).cached;
    var listed := set l | l in variants && l in eligible;
    if cached != {} then cached else if listed != {} then listed else ToSet(variants)
  }

  lemma FirstFromIsFirst(variants: seq<Leaf>, p: set<Leaf>, pool: set<Leaf>)
    requires forall l :: l in variants ==> (l in p <==> l in pool)
    ensures var i := FirstFrom(variants, p, 0);
            && (i < |variants| ==> FirstIn(variants, pool, variants[i]))
            && (i == |variants| ==> forall l :: l in variants ==> l !in pool)
  {
    hide FirstFrom;
    var i := FirstFrom(variants, p, 0);
    assert forall k :: 0 <= k < i ==> variants[k] in variants && variants[k] !in pool;
  }

  lemma FirstCachedIsFirst(variants: seq<Leaf>, env: Env)
    requires variants != []
    ensures FirstIn(variants, ReselectPool(variants, env), FirstCached(variants, env))
  {
    var cached := set l | l in variants && ViewOf(env, l).cached;
    FirstFromIsFirst(variants, CachedOf(variants, env), cached);
    var i := FirstFrom(variants, CachedOf(variants, env), 0);
    hide FirstFrom;
    if i < |variants| {
      assert variants[i] in cached;
    } else {
      assert cached == {} && variants[0] in ToSet(variants);
    }
  }

  lemma DefaultChoiceIsFirst(variants: seq<Leaf>, eligible: set<Leaf>, env: Env)
    requires variants != []
    ensures FirstIn(variants, DefaultPool(variants, eligible, env), DefaultChoice(variants, eligible, env))
    ensures FirstFrom(variants, eligible, 0) < |variants| <==> exists v :: v in variants && v in eligible
  {
    var cached := set l | l in variants && l in eligible && ViewOf(env, l).cached;
    var listed := set l | l in variants && l in eligible;
    FirstFromIsFirst(variants, eligible * CachedOf(variants, env), cached);
    FirstFromIsFirst(variants, eligible, listed);
    var c, e := FirstFrom(variants, eligible * CachedOf(variants, env), 0), FirstFrom(variants, eligible, 0);
    hide FirstFrom;
    if c < |variants| {
      assert variants[c] in cached;
    } else {
      assert cached == {};
      if e < |variants| {
        assert variants[e] in listed;
      } else {
        assert listed == {} && variants[0] in ToSet(variants);
      }
    }
  }

  lemma DefaultIsInPool(variants: seq<Leaf>, eligible: set<Leaf>, env: Env)
    requires variants != []
    ensures Sorted(InfosOf(variants)) && DistinctIds(InfosOf(variants)) ==>
              IsBest(DefaultChoice(variants, eligible, env), DefaultPool(variants, eligible, env))
  {
    DefaultChoiceIsFirst(variants, eligible, env);
    var pool := DefaultPool(variants, eligible, env);
    assert pool <= ToSet(variants);
    hide DefaultPool, DefaultChoice, FirstIn, IsBest, Sorted, DistinctIds;
    if Sorted(InfosOf(variants)) && DistinctIds(InfosOf(variants)) {
      FirstInIsBest(variants, pool, DefaultChoice(variants, eligible, env));
    }
  }

  /** What SelectDefaultVariant must keep when asked to: an explicit, busy, pinned or loaded selection. */
  predicate Retained(s: State, busy: Option<Leaf>, env: Env) {
    var view := ViewOf(env, s.selected);
    s.explicit || busy == Some(s.selected) || view.downloading || view.pinned || view.loaded
  }

  ghost predicate DefaultOutcome(s: State, t: State, eligible: set<Leaf>, preserve: bool, busy: Option<Leaf>,
      env: Env) {
    && t == s.(selected := t.selected, explicit := t.explicit, eligibleDefault := t.eligibleDefault)
    && (t.eligibleDefault <==> exists v :: v in s.variants && v in eligible)
    && if preserve && Retained(s, busy, env) then t.selected == s.selected && t.explicit == s.explicit
       else !t.explicit && FirstIn(s.variants, DefaultPool(s.variants, eligible, env), t.selected)
  }

  /** The first of the best class becomes the selection, unless the present one is to be kept. */
  lemma DefaultDoes(s: State, eligible: set<Leaf>, preserve: bool, busy: Option<Leaf>, env: Env)
    requires s.variants != []
    ensures DefaultOutcome(s, DefaultStep(s, eligible, preserve, busy, env), eligible, preserve, busy, env)
  {
    hide FirstIn, DefaultPool, DefaultChoice, FirstFrom;
    DefaultChoiceIsFirst(s.variants, eligible, env);
  }

  ghost predicate ReconcileOutcome(s: State, t: State, incoming: seq<Leaf>, env: Env) {
    && multiset(RowsOf(t.variants, env)) == multiset(RowsOf(incoming, env)) && Sorted(InfosOf(t.variants))
    && t == s.(variants := t.variants, retired := t.retired, selected := t.selected, explicit := t.explicit,
               inactive := t.inactive)
    && s.retired <= t.retired && ToSet(t.retired) == ToSet(s.retired) + (ToSet(s.variants) - ToSet(t.variants))
    && t.inactive == s.inactive + (ToSet(s.variants) - ToSet(t.variants))
    && t.explicit == (s.explicit && s.selected in t.variants)
    && if (s.explicit || ViewOf(env, s.selected).pinned || ViewOf(env, s.selected).loaded) && s.selected in t.variants
       then t.selected == s.selected
       else FirstIn(t.variants, ReselectPool(t.variants, env), t.selected)
  }

  lemma DroppedIsUnlisted(s: State, incoming: seq<Leaf>, env: Env, order: seq<Leaf>)
    requires Once(Placed(s)) && SortOutcome(s, incoming, env, order) && forall l :: l in incoming ==> l !in Placed(s)
    ensures ToSet(Match(s.variants, incoming, env).dropped) == ToSet(s.variants) - ToSet(order)
  {
    hide Match, Sorted;
    var m := Match(s.variants, incoming, env);
    MatchedLeaves(s.variants, incoming, env);
    OncePart(multiset(s.variants), multiset(s.retired));
    forall l
      ensures l in m.dropped <==> l in s.variants && l !in order
    {
      NotAdded(s, incoming, m.added, l);
      assert l in s.variants <==> l in multiset(s.variants);
      assert l in m.dropped <==> l in multiset(m.dropped);
      assert l in order <==> l in multiset(order);
      CountedOnce(multiset(s.variants), multiset(m.kept), multiset(m.dropped), multiset(m.added), multiset(order), l);
    }
    hide *;
    ByElements(m.dropped, s.variants, order);
  }

  lemma ByElements(dropped: seq<Leaf>, variants: seq<Leaf>, order: seq<Leaf>)
    requires forall l :: l in dropped <==> l in variants && l !in order
    ensures ToSet(dropped) == ToSet(variants) - ToSet(order)
  {
  }

  lemma CountedOnce(all: multiset<Leaf>, kept: multiset<Leaf>, dropped: multiset<Leaf>, added: multiset<Leaf>,
      order: multiset<Leaf>, leaf: Leaf)
    requires Once(all) && kept + dropped == all && kept + added == order && (leaf in all ==> added[leaf] == 0)
    ensures leaf in dropped <==> leaf in all && leaf !in order
  {
    assert kept[leaf] + dropped[leaf] == all[leaf] && kept[leaf] + added[leaf] == order[leaf];
  }

  lemma NotAdded(s: State, incoming: seq<Leaf>, added: seq<Leaf>, leaf: Leaf)
    requires multiset(added) <= multiset(incoming) && forall l :: l in incoming ==> l !in Placed(s)
    ensures leaf in s.variants ==> multiset(added)[leaf] == 0
  {
    if leaf in s.variants {
      assert leaf in multiset(s.variants) && leaf in Placed(s);
      assert leaf !in incoming;
      assert leaf !in multiset(incoming);
    }
  }

  /** Fresh rows best first, what is gone retired, and a pinned, loaded or explicit selection kept while listed. */
  lemma ReconcileDoes(s: State, incoming: seq<Leaf>, env: Env, order: seq<Leaf>)
    requires Once(Placed(s)) && forall l :: l in incoming ==> l !in Placed(s)
    requires order != [] && SortOutcome(s, incoming, env, order)
    ensures ReconcileOutcome(s, ReconcileStep(s, incoming, env, order), incoming, env)
  {
    ReconcileReplaces(s, incoming, env, order);
    DroppedIsUnlisted(s, incoming, env, order);
    FirstCachedIsFirst(order, env);
    var dropped := Match(s.variants, incoming, env).dropped;
    assert ToSet(s.retired + dropped) == ToSet(s.retired) + ToSet(dropped);
    hide Match, Sorted, FirstIn, FirstCached, ReselectPool, ToSet, RowOf, Once, Placed, SortOutcome;
  }

  ghost predicate RetireOutcome(s: State, t: State, id: string, env: Env) {
    if forall v :: v in s.variants ==> v.info.modelId != id then t == s
    else exists i :: 0 <= i < |s.variants| && RetiresAt(s, t, i, id, env)
  }

  /** The first variant with the id goes, and only if it was selected or the last one does the selection change. */
  ghost predicate RetiresAt(s: State, t: State, i: nat, id: string, env: Env)
    requires i < |s.variants|
  {
    var leaf := s.variants[i];
    && leaf.info.modelId == id && (forall k :: 0 <= k < i ==> s.variants[k].info.modelId != id)
    && t.variants == s.variants[..i] + s.variants[i + 1..]
    && t == s.(variants := t.variants, retired := s.retired + [leaf], inactive := s.inactive + {leaf},
               selected := t.selected, explicit := t.explicit)
    && ReselectedBehind(s, t, leaf, env)
  }

  ghost predicate ReselectedBehind(s: State, t: State, leaf: Leaf, env: Env) {
    && (t.variants == [] ==> t.selected == leaf && !t.explicit)
    && (t.variants != [] && s.selected == leaf ==>
          !t.explicit && FirstIn(t.variants, ReselectPool(t.variants, env), t.selected))
    && (t.variants != [] && s.selected != leaf ==> t.selected == s.selected && t.explicit == s.explicit)
  }

  lemma RetireReselects(s: State, i: nat, id: string, env: Env)
    requires i < |s.variants| && i == FindId(s.variants, id, 0)
    ensures ReselectedBehind(s, RetireStep(s, id, env), s.variants[i], env)
  {
    var rest := Without(s.variants, i);
    if rest != [] { FirstCachedIsFirst(rest, env); }
    hide FirstIn, FirstCached, ReselectPool, FindId, Without;
  }

  lemma RetireDoesAt(s: State, i: nat, id: string, env: Env)
    requires i < |s.variants| && i == FindId(s.variants, id, 0)
    ensures RetiresAt(s, RetireStep(s, id, env), i, id, env)
  {
    RetireReselects(s, i, id, env);
    assert Without(s.variants, i) == s.variants[..i] + s.variants[i + 1..];
    hide FirstCached, FindId, ReselectedBehind, Without;
  }

  lemma RetireDoes(s: State, id: string, env: Env)
    ensures RetireOutcome(s, RetireStep(s, id, env), id, env)
  {
    var i := FindId(s.variants, id, 0);
    if i < |s.variants| {
      RetireDoesAt(s, i, id, env);
      hide RetiresAt, FindId, FirstCached, Without;
      assert s.variants[i] in s.variants;
    } else {
      hide FindId;
      forall v | v in s.variants
        ensures v.info.modelId != id
      {
      }
    }
  }

  ghost predicate AddOutcome(s: State, t: State, leaf: Leaf) {
    && (exists n :: 0 <= n <= |s.variants| && t.variants == s.variants[..n] + [leaf] + s.variants[n..])
    && t == s.(variants := t.variants) && (Sorted(InfosOf(s.variants)) ==> Sorted(InfosOf(t.variants)))
  }

  lemma AddDoes(s: State, leaf: Leaf)
    ensures AddOutcome(s, AddStep(s, leaf), leaf)
  {
    InsertInfos(s.variants, leaf);
    if Sorted(InfosOf(s.variants)) { InsertKeepsSorted(InfosOf(s.variants), leaf.info); }
    hide Sorted, InsertionPoint;
    var n := InsertionPoint(InfosOf(s.variants), leaf.info);
    assert AddStep(s, leaf).variants == s.variants[..n] + [leaf] + s.variants[n..];
  }
}
