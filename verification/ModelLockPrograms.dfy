/**
  The lock operations of the Model calls (sdk_v2/cpp/src/model.cc:232-398, 422-446,
  570-620, 674-932; sdk_v2/cpp/src/catalog/local_model_catalog.cc:340-400), and that
  they all keep the documented order.

  Every function takes what the thread does afterwards as its last argument.
*/
module ModelLockPrograms {
  import opened ModelLocks

  function Section(m: Mutex, then_: Program): Program { Lock(m, Unlock(m, then_)) }

  /** LocalPathSnapshot, LocalPath, HasPreservedLoadedSelection and IsModelLoading. */
  function ReadPath(leaf: LeafId, then_: Program): Program { Section(LeafState(leaf), then_) }

  /** IsLoaded looks at the path of an active leaf only. */
  function AskLoaded(leaf: LeafId, then_: Program): Program { Decide(ReadPath(leaf, then_), then_) }

  function ReadPaths(leaves: seq<LeafId>, then_: Program): Program {
    if leaves == [] then then_ else AskLoaded(leaves[0], ReadPaths(leaves[1..], then_))
  }

  /** SelectDefaultVariantLocked, under the container's state mutex. */
  function DefaultLocked(selected: LeafId, then_: Program): Program {
    Decide(then_, ReadPath(selected, AskLoaded(selected, then_)))
  }

  /** RefreshDefaultVariant; its callback runs between the two sections and may end in an exception. */
  function RefreshDefault(selected: LeafId, then_: Program): Program {
    Section(ContainerState,
            Decide(then_,
                   Lock(ContainerState,
                        DefaultLocked(selected,
                                      DefaultLocked(selected, Unlock(ContainerState, Decide(Return, then_)))))))
  }

  function LoadLeaf(leaf: LeafId, then_: Program): Program {
    Lock(LeafLifecycle(leaf),
         Decide(Unlock(LeafLifecycle(leaf), then_),
                ReadPath(leaf, AskLoaded(leaf, Unlock(LeafLifecycle(leaf), AskLoaded(leaf, then_))))))
  }

  function LoadContainer(refreshed: LeafId, selected: LeafId): Program {
    RefreshDefault(refreshed,
                   Lock(ContainerLifecycle,
                        Section(ContainerState,
                                LoadLeaf(selected,
                                         Section(ContainerState, Unlock(ContainerLifecycle, Return))))))
  }

  function UnloadLeaf(leaf: LeafId, then_: Program): Program {
    Lock(LeafLifecycle(leaf), ReadPath(leaf, Unlock(LeafLifecycle(leaf), then_)))
  }

  function UnloadContainer(selected: LeafId): Program {
    Lock(ContainerLifecycle, UnloadLeaf(selected, Unlock(ContainerLifecycle, Return)))
  }

  /** TryReconcileVariants, with the leaves whose paths it looks at. */
  function Reconcile(incoming: nat, looked: seq<LeafId>): Program {
    TryLock(ContainerLifecycle,
            Lock(ContainerState,
                 Lock(IncomingState(incoming),
                      ReadPaths(looked,
                                Unlock(IncomingState(incoming),
                                       Unlock(ContainerState, Unlock(ContainerLifecycle, Return)))))),
            Return)
  }

  /** AddVariant, RetireVariant and SelectVariant. */
  function EditVariants(): Program { Section(ContainerState, Return) }

  function SelectDefault(selected: LeafId): Program {
    Lock(ContainerState, DefaultLocked(selected, Unlock(ContainerState, Return)))
  }

  function DeactivateForRefresh(): Program {
    TryLock(ContainerLifecycle, Section(ContainerState, Unlock(ContainerLifecycle, Return)), Return)
  }

  function UnlockLeaves(leaves: seq<LeafId>, then_: Program): Program {
    if leaves == [] then then_ else Unlock(LeafLifecycle(leaves[0]), UnlockLeaves(leaves[1..], then_))
  }

  function Reverse(leaves: seq<LeafId>): (r: seq<LeafId>)
    ensures forall l :: l in r <==> l in leaves
  {
    if leaves == [] then [] else Reverse(leaves[1..]) + [leaves[0]]
  }

  /** The rollback of BeginUnregister. */
  function RollBack(locked: seq<LeafId>): Program {
    UnlockLeaves(Reverse(locked), Unlock(ContainerLifecycle, Return))
  }

  /** BeginUnregister over the snapshot, where any leaf may refuse. */
  function LockLeaves(todo: seq<LeafId>, locked: seq<LeafId>, then_: Program): Program
    decreases |todo|
  {
    if todo == [] then then_
    else
      Lock(LeafLifecycle(todo[0]),
           Decide(Unlock(LeafLifecycle(todo[0]), RollBack(locked)),
                  ReadPath(todo[0],
                           Decide(Unlock(LeafLifecycle(todo[0]), RollBack(locked)),
                                  LockLeaves(todo[1..], locked + [todo[0]], then_)))))
  }

  /** What the catalog does between BeginUnregister and EndUnregister. */
  function WhileLocked(looked: seq<LeafId>, then_: Program): Program {
    Section(ContainerState,
            ReadPaths(looked,
                      Decide(then_,
                             Section(ContainerState, Decide(then_, Section(ContainerState, then_))))))
  }

  function EndUnregister(leaves: seq<LeafId>): Program {
    UnlockLeaves(leaves, Unlock(ContainerLifecycle, Return))
  }

  function Unregister(leaves: seq<LeafId>, looked: seq<LeafId>): Program {
    Lock(ContainerLifecycle,
         Decide(Unlock(ContainerLifecycle, Return),
                Section(ContainerState, LockLeaves(leaves, [], WhileLocked(looked, EndUnregister(leaves))))))
  }

  function Download(leaf: LeafId): Program {
    Lock(LeafLifecycle(leaf),
         Unlock(LeafLifecycle(leaf),
                Decide(Return, ReadPath(leaf, Decide(Return, ReadPath(leaf, Return))))))
  }

  function RemoveFromCache(leaf: LeafId): Program {
    Lock(LeafLifecycle(leaf),
         Decide(Unlock(LeafLifecycle(leaf), Return),
                ReadPath(leaf,
                         Decide(Unlock(LeafLifecycle(leaf), Return),
                                AskLoaded(leaf,
                                          Decide(Unlock(LeafLifecycle(leaf), Return),
                                                 ReadPath(leaf, Unlock(LeafLifecycle(leaf), Return))))))))
  }

  function UpdateCachedState(leaf: LeafId): Program {
    TryLock(LeafLifecycle(leaf),
            Decide(Unlock(LeafLifecycle(leaf), Return),
                   ReadPath(leaf,
                            AskLoaded(leaf,
                                      Decide(Unlock(LeafLifecycle(leaf), Return),
                                             ReadPath(leaf, Unlock(LeafLifecycle(leaf), Return)))))),
            Return)
  }

  /** RefreshCachedState and ForgetCachedState. */
  function PublishCachedState(leaf: LeafId): Program {
    Lock(LeafLifecycle(leaf),
         Decide(Unlock(LeafLifecycle(leaf), Return), ReadPath(leaf, Unlock(LeafLifecycle(leaf), Return))))
  }

  datatype Call =
    | CallLoadContainer(refreshed: LeafId, selected: LeafId)
    | CallLoadLeaf(leaf: LeafId)
    | CallUnloadContainer(leaf: LeafId)
    | CallUnloadLeaf(leaf: LeafId)
    | CallReconcile(incoming: nat, looked: seq<LeafId>)
    | CallEditVariants
    | CallSelectDefault(selected: LeafId)
    | CallDeactivateForRefresh
    | CallUnregister(leaves: seq<LeafId>, looked: seq<LeafId>)
    | CallDownload(leaf: LeafId)
    | CallRemoveFromCache(leaf: LeafId)
    | CallUpdateCachedState(leaf: LeafId)
    | CallPublishCachedState(leaf: LeafId)

  function Code(call: Call): Program {
    match call
    case CallLoadContainer(refreshed, selected) => LoadContainer(refreshed, selected)
    case CallLoadLeaf(leaf) => LoadLeaf(leaf, Return)
    case CallUnloadContainer(leaf) => UnloadContainer(leaf)
    case CallUnloadLeaf(leaf) => UnloadLeaf(leaf, Return)
    case CallReconcile(incoming, looked) => Reconcile(incoming, looked)
    case CallEditVariants => EditVariants()
    case CallSelectDefault(selected) => SelectDefault(selected)
    case CallDeactivateForRefresh => DeactivateForRefresh()
    case CallUnregister(leaves, looked) => Unregister(leaves, looked)
    case CallDownload(leaf) => Download(leaf)
    case CallRemoveFromCache(leaf) => RemoveFromCache(leaf)
    case CallUpdateCachedState(leaf) => UpdateCachedState(leaf)
    case CallPublishCachedState(leaf) => PublishCachedState(leaf)
  }

  predicate Distinct(leaves: seq<LeafId>) { forall i, j | 0 <= i < j < |leaves| :: leaves[i] != leaves[j] }

  /** The variants of a container are different leaves. */
  predicate Valid(call: Call) {
    call.CallUnregister? ==> Distinct(call.leaves)
  }

  // ---------------------------------------------------------------------
  // The order is kept
  // ---------------------------------------------------------------------

  predicate Below(held: set<Mutex>, rank: nat) { forall h | h in held :: Rank(h) < rank }

  lemma SectionKeepsOrder(m: Mutex, then_: Program, held: set<Mutex>)
    requires Below(held, Rank(m)) && WellOrdered(then_, held)
    ensures WellOrdered(Section(m, then_), held)
  {
    assert m !in held;
    assert held + {m} - {m} == held;
  }

  lemma ReadKeepsOrder(leaf: LeafId, then_: Program, held: set<Mutex>)
    requires Below(held, 4) && WellOrdered(then_, held)
    ensures WellOrdered(ReadPath(leaf, then_), held) && WellOrdered(AskLoaded(leaf, then_), held)
  {
    SectionKeepsOrder(LeafState(leaf), then_, held);
  }

  lemma {:induction false} ReadsKeepOrder(leaves: seq<LeafId>, then_: Program, held: set<Mutex>)
    requires Below(held, 4) && WellOrdered(then_, held)
    ensures WellOrdered(ReadPaths(leaves, then_), held)
  {
    hide WellOrdered, Below, AskLoaded, ReadPath;
    if leaves != [] {
      ReadsKeepOrder(leaves[1..], then_, held);
      ReadKeepsOrder(leaves[0], ReadPaths(leaves[1..], then_), held);
    }
  }

  lemma DecideKeepsOrder(a: Program, b: Program, held: set<Mutex>)
    requires WellOrdered(a, held) && WellOrdered(b, held)
    ensures WellOrdered(Decide(a, b), held)
  {
  }

  /** Unlocking the mutex taken last. */
  lemma UnlockKeepsOrder(m: Mutex, then_: Program, held: set<Mutex>)
    requires m !in held && WellOrdered(then_, held)
    ensures WellOrdered(Unlock(m, then_), held + {m})
  {
    assert held + {m} - {m} == held;
  }

  lemma LockKeepsOrder(m: Mutex, then_: Program, held: set<Mutex>)
    requires Below(held, Rank(m)) && WellOrdered(then_, held + {m})
    ensures WellOrdered(Lock(m, then_), held)
  {
  }

  lemma BelowMore(held: set<Mutex>, m: Mutex, rank: nat)
    requires Below(held, Rank(m)) && Rank(m) < rank
    ensures Below(held, rank) && Below(held + {m}, rank) && m !in held
  {
  }

  lemma DefaultKeepsOrder(selected: LeafId, then_: Program, held: set<Mutex>)
    requires Below(held, 4) && WellOrdered(then_, held)
    ensures WellOrdered(DefaultLocked(selected, then_), held)
  {
    hide WellOrdered, AskLoaded, ReadPath, Below;
    ReadKeepsOrder(selected, then_, held);
    ReadKeepsOrder(selected, AskLoaded(selected, then_), held);
    DecideKeepsOrder(then_, ReadPath(selected, AskLoaded(selected, then_)), held);
  }

  lemma RefreshKeepsOrder(selected: LeafId, then_: Program)
    requires WellOrdered(then_, {})
    ensures WellOrdered(RefreshDefault(selected, then_), {})
  {
    assert WellOrdered(Return, {});
    hide WellOrdered, DefaultLocked;
    var held := {} + {ContainerState};
    BelowMore({}, ContainerState, 4);
    var last := Unlock(ContainerState, Decide(Return, then_));
    DecideKeepsOrder(Return, then_, {});
    UnlockKeepsOrder(ContainerState, Decide(Return, then_), {});
    DefaultKeepsOrder(selected, last, held);
    DefaultKeepsOrder(selected, DefaultLocked(selected, last), held);
    var second := Lock(ContainerState, DefaultLocked(selected, DefaultLocked(selected, last)));
    LockKeepsOrder(ContainerState, DefaultLocked(selected, DefaultLocked(selected, last)), {});
    DecideKeepsOrder(then_, second, {});
    SectionKeepsOrder(ContainerState, Decide(then_, second), {});
  }

  lemma LoadKeepsOrder(leaf: LeafId, then_: Program, held: set<Mutex>)
    requires Below(held, 1) && WellOrdered(then_, held)
    ensures WellOrdered(LoadLeaf(leaf, then_), held)
  {
    hide WellOrdered, AskLoaded, ReadPath;
    var m := LeafLifecycle(leaf);
    BelowMore(held, m, 4);
    UnlockKeepsOrder(m, then_, held);
    ReadKeepsOrder(leaf, then_, held);
    var early := Unlock(m, AskLoaded(leaf, then_));
    UnlockKeepsOrder(m, AskLoaded(leaf, then_), held);
    ReadKeepsOrder(leaf, early, held + {m});
    ReadKeepsOrder(leaf, AskLoaded(leaf, early), held + {m});
    DecideKeepsOrder(Unlock(m, then_), ReadPath(leaf, AskLoaded(leaf, early)), held + {m});
    LockKeepsOrder(m, Decide(Unlock(m, then_), ReadPath(leaf, AskLoaded(leaf, early))), held);
  }

  lemma LoadContainerKeepsOrder(refreshed: LeafId, selected: LeafId)
    ensures WellOrdered(LoadContainer(refreshed, selected), {})
  {
    assert WellOrdered(Return, {});
    hide WellOrdered, RefreshDefault, LoadLeaf, Section;
    var held := {} + {ContainerLifecycle};
    BelowMore({}, ContainerLifecycle, 4);
    assert Below(held, 1) && Below(held, 2);
    UnlockKeepsOrder(ContainerLifecycle, Return, {});
    SectionKeepsOrder(ContainerState, Unlock(ContainerLifecycle, Return), held);
    var guard := Section(ContainerState, Unlock(ContainerLifecycle, Return));
    LoadKeepsOrder(selected, guard, held);
    SectionKeepsOrder(ContainerState, LoadLeaf(selected, guard), held);
    LockKeepsOrder(ContainerLifecycle, Section(ContainerState, LoadLeaf(selected, guard)), {});
    RefreshKeepsOrder(refreshed, Lock(ContainerLifecycle, Section(ContainerState, LoadLeaf(selected, guard))));
  }

  lemma UnloadKeepsOrder(leaf: LeafId, then_: Program, held: set<Mutex>)
    requires Below(held, 1) && WellOrdered(then_, held)
    ensures WellOrdered(UnloadLeaf(leaf, then_), held)
  {
    hide WellOrdered, ReadPath;
    var m := LeafLifecycle(leaf);
    BelowMore(held, m, 4);
    UnlockKeepsOrder(m, then_, held);
    ReadKeepsOrder(leaf, Unlock(m, then_), held + {m});
    LockKeepsOrder(m, ReadPath(leaf, Unlock(m, then_)), held);
  }

  lemma UnloadContainerKeepsOrder(leaf: LeafId)
    ensures WellOrdered(UnloadContainer(leaf), {})
  {
    assert WellOrdered(Return, {});
    hide WellOrdered, UnloadLeaf;
    var held := {} + {ContainerLifecycle};
    assert Below(held, 1) && Below({}, 0);
    UnlockKeepsOrder(ContainerLifecycle, Return, {});
    UnloadKeepsOrder(leaf, Unlock(ContainerLifecycle, Return), held);
    LockKeepsOrder(ContainerLifecycle, UnloadLeaf(leaf, Unlock(ContainerLifecycle, Return)), {});
  }

  lemma TryKeepsOrder(m: Mutex, locked: Program)
    requires WellOrdered(locked, {} + {m})
    ensures WellOrdered(TryLock(m, locked, Return), {})
  {
  }

  lemma ReconcileKeepsOrder(incoming: nat, looked: seq<LeafId>)
    ensures WellOrdered(Reconcile(incoming, looked), {})
  {
    assert WellOrdered(Return, {});
    hide WellOrdered, ReadPaths;
    var one := {} + {ContainerLifecycle};
    var two := one + {ContainerState};
    var three := two + {IncomingState(incoming)};
    assert Below({}, 0) && Below(one, 2) && Below(two, 3) && Below(three, 4);
    UnlockKeepsOrder(ContainerLifecycle, Return, {});
    UnlockKeepsOrder(ContainerState, Unlock(ContainerLifecycle, Return), one);
    var last := Unlock(IncomingState(incoming), Unlock(ContainerState, Unlock(ContainerLifecycle, Return)));
    UnlockKeepsOrder(IncomingState(incoming), Unlock(ContainerState, Unlock(ContainerLifecycle, Return)), two);
    ReadsKeepOrder(looked, last, three);
    LockKeepsOrder(IncomingState(incoming), ReadPaths(looked, last), two);
    LockKeepsOrder(ContainerState, Lock(IncomingState(incoming), ReadPaths(looked, last)), one);
    TryKeepsOrder(ContainerLifecycle, Lock(ContainerState, Lock(IncomingState(incoming), ReadPaths(looked, last))));
  }

  lemma SelectDefaultKeepsOrder(selected: LeafId)
    ensures WellOrdered(SelectDefault(selected), {})
  {
    assert WellOrdered(Return, {});
    hide WellOrdered, DefaultLocked;
    BelowMore({}, ContainerState, 4);
    UnlockKeepsOrder(ContainerState, Return, {});
    DefaultKeepsOrder(selected, Unlock(ContainerState, Return), {} + {ContainerState});
    LockKeepsOrder(ContainerState, DefaultLocked(selected, Unlock(ContainerState, Return)), {});
  }

  lemma DeactivateKeepsOrder()
    ensures WellOrdered(DeactivateForRefresh(), {})
  {
    assert WellOrdered(Return, {});
    hide WellOrdered, Section;
    var one := {} + {ContainerLifecycle};
    assert Below(one, 2);
    UnlockKeepsOrder(ContainerLifecycle, Return, {});
    SectionKeepsOrder(ContainerState, Unlock(ContainerLifecycle, Return), one);
    TryKeepsOrder(ContainerLifecycle, Section(ContainerState, Unlock(ContainerLifecycle, Return)));
  }

  // ---------------------------------------------------------------------
  // The unregister transaction
  // ---------------------------------------------------------------------

  /** What the transaction holds with these leaves locked. */
  function Locked(leaves: seq<LeafId>): set<Mutex> { {ContainerLifecycle} + set l | l in leaves :: LeafLifecycle(l) }

  lemma LockedIsBelow(leaves: seq<LeafId>)
    ensures Below(Locked(leaves), 2) && Below(Locked(leaves), 4)
  {
  }

  lemma {:induction false} UnlockAll(leaves: seq<LeafId>)
    requires Distinct(leaves)
    ensures WellOrdered(EndUnregister(leaves), Locked(leaves))
  {
    if leaves == [] {
      assert Locked(leaves) - {ContainerLifecycle} == {};
    } else {
      UnlockAll(leaves[1..]);
      assert Locked(leaves) - {LeafLifecycle(leaves[0])} == Locked(leaves[1..]);
    }
  }

  lemma {:induction false} ReverseIsDistinct(leaves: seq<LeafId>)
    requires Distinct(leaves)
    ensures Distinct(Reverse(leaves))
  {
    if leaves != [] {
      ReverseIsDistinct(leaves[1..]);
      forall k | 1 <= k < |leaves|
        ensures leaves[k] != leaves[0]
      {
      }
      assert leaves[0] !in leaves[1..];
      var front := Reverse(leaves[1..]);
      assert leaves[0] !in front;
      forall k | 0 <= k < |front|
        ensures front[k] != leaves[0]
      {
        assert front[k] in front;
      }
    }
  }

  lemma RollBackKeepsOrder(locked: seq<LeafId>)
    requires Distinct(locked)
    ensures WellOrdered(RollBack(locked), Locked(locked))
  {
    ReverseIsDistinct(locked);
    UnlockAll(Reverse(locked));
    assert Locked(Reverse(locked)) == Locked(locked);
  }

  /** One more leaf may be waited for under the container's lifecycle mutex. */
  lemma LockLeafKeepsOrder(leaf: LeafId, locked: seq<LeafId>, then_: Program)
    requires leaf !in locked && WellOrdered(then_, Locked(locked) + {LeafLifecycle(leaf)})
    ensures WellOrdered(Lock(LeafLifecycle(leaf), then_), Locked(locked))
  {
    assert MayTake(LeafLifecycle(leaf), Locked(locked));
  }

  lemma LockedGrows(leaf: LeafId, locked: seq<LeafId>)
    ensures Locked(locked) + {LeafLifecycle(leaf)} == Locked(locked + [leaf])
  {
  }

  lemma {:induction false} LockLeavesKeepsOrder(todo: seq<LeafId>, locked: seq<LeafId>, then_: Program)
    requires Distinct(locked + todo) && WellOrdered(then_, Locked(locked + todo))
    ensures WellOrdered(LockLeaves(todo, locked, then_), Locked(locked))
    decreases |todo|
  {
    if todo == [] {
      assert locked + todo == locked;
    } else {
      var leaf := todo[0];
      assert locked + todo == locked + [leaf] + todo[1..];
      LeafIsNew(todo, locked);
      hide WellOrdered, Locked, ReadPath, RollBack, Distinct, Below;
      LockLeavesKeepsOrder(todo[1..], locked + [leaf], then_);
      LockedGrows(leaf, locked);
      LockedIsBelow(locked + [leaf]);
      RollBackKeepsOrder(locked);
      NotLocked(leaf, locked);
      var refuse := Unlock(LeafLifecycle(leaf), RollBack(locked));
      UnlockKeepsOrder(LeafLifecycle(leaf), RollBack(locked), Locked(locked));
      var go := LockLeaves(todo[1..], locked + [leaf], then_);
      DecideKeepsOrder(refuse, go, Locked(locked + [leaf]));
      ReadKeepsOrder(leaf, Decide(refuse, go), Locked(locked + [leaf]));
      DecideKeepsOrder(refuse, ReadPath(leaf, Decide(refuse, go)), Locked(locked + [leaf]));
      LockLeafKeepsOrder(leaf, locked, Decide(refuse, ReadPath(leaf, Decide(refuse, go))));
    }
  }

  lemma LeafIsNew(todo: seq<LeafId>, locked: seq<LeafId>)
    requires todo != [] && Distinct(locked + todo)
    ensures todo[0] !in locked && Distinct(locked)
  {
    var all := locked + todo;
    forall i | 0 <= i < |locked|
      ensures locked[i] != todo[0]
    {
      assert all[i] != all[|locked|];
    }
    forall i, j | 0 <= i < j < |locked|
      ensures locked[i] != locked[j]
    {
      assert all[i] != all[j];
    }
  }

  lemma NotLocked(leaf: LeafId, locked: seq<LeafId>)
    requires leaf !in locked
    ensures LeafLifecycle(leaf) !in Locked(locked)
  {
  }

  lemma WhileLockedKeepsOrder(looked: seq<LeafId>, then_: Program, held: set<Mutex>)
    requires Below(held, 2) && Below(held, 4) && WellOrdered(then_, held)
    ensures WellOrdered(WhileLocked(looked, then_), held)
  {
    hide WellOrdered, Section, Below, ReadPaths;
    SectionKeepsOrder(ContainerState, then_, held);
    var commit := Section(ContainerState, then_);
    DecideKeepsOrder(then_, commit, held);
    SectionKeepsOrder(ContainerState, Decide(then_, commit), held);
    var prepare := Section(ContainerState, Decide(then_, commit));
    DecideKeepsOrder(then_, prepare, held);
    ReadsKeepOrder(looked, Decide(then_, prepare), held);
    SectionKeepsOrder(ContainerState, ReadPaths(looked, Decide(then_, prepare)), held);
  }

  lemma UnregisterKeepsOrder(leaves: seq<LeafId>, looked: seq<LeafId>)
    requires Distinct(leaves)
    ensures WellOrdered(Unregister(leaves, looked), {})
  {
    assert WellOrdered(Return, {});
    assert Below({}, 0);
    assert Locked([]) == {} + {ContainerLifecycle};
    assert [] + leaves == leaves;
    LockedIsBelow(leaves);
    LockedIsBelow([]);
    UnlockAll(leaves);
    hide WellOrdered, Section, Below, LockLeaves, WhileLocked, EndUnregister, Locked, Distinct;
    var work := WhileLocked(looked, EndUnregister(leaves));
    WhileLockedKeepsOrder(looked, EndUnregister(leaves), Locked(leaves));
    LockLeavesKeepsOrder(leaves, [], work);
    UnlockKeepsOrder(ContainerLifecycle, Return, {});
    SectionKeepsOrder(ContainerState, LockLeaves(leaves, [], work), Locked([]));
    var body := Section(ContainerState, LockLeaves(leaves, [], work));
    DecideKeepsOrder(Unlock(ContainerLifecycle, Return), body, Locked([]));
    LockKeepsOrder(ContainerLifecycle, Decide(Unlock(ContainerLifecycle, Return), body), {});
  }

  // ---------------------------------------------------------------------
  // Leaf operations
  // ---------------------------------------------------------------------

  lemma LeafCallsKeepOrder(leaf: LeafId)
    ensures WellOrdered(Download(leaf), {}) && WellOrdered(PublishCachedState(leaf), {})
  {
    assert WellOrdered(Return, {});
    hide WellOrdered, ReadPath;
    var m := LeafLifecycle(leaf);
    var one := {} + {m};
    assert Below({}, 1) && Below({}, 4) && Below(one, 4);
    ReadKeepsOrder(leaf, Return, {});
    DecideKeepsOrder(Return, ReadPath(leaf, Return), {});
    var publish := Decide(Return, ReadPath(leaf, Return));
    ReadKeepsOrder(leaf, publish, {});
    DecideKeepsOrder(Return, ReadPath(leaf, publish), {});
    UnlockKeepsOrder(m, Decide(Return, ReadPath(leaf, publish)), {});
    LockKeepsOrder(m, Unlock(m, Decide(Return, ReadPath(leaf, publish))), {});
    UnlockKeepsOrder(m, Return, {});
    ReadKeepsOrder(leaf, Unlock(m, Return), one);
    DecideKeepsOrder(Unlock(m, Return), ReadPath(leaf, Unlock(m, Return)), one);
    LockKeepsOrder(m, Decide(Unlock(m, Return), ReadPath(leaf, Unlock(m, Return))), {});
  }

  lemma CacheCallsKeepOrder(leaf: LeafId)
    ensures WellOrdered(RemoveFromCache(leaf), {}) && WellOrdered(UpdateCachedState(leaf), {})
  {
    assert WellOrdered(Return, {});
    hide WellOrdered, ReadPath, AskLoaded;
    var m := LeafLifecycle(leaf);
    var one := {} + {m};
    assert Below({}, 1) && Below(one, 4);
    var give := Unlock(m, Return);
    UnlockKeepsOrder(m, Return, {});
    ReadKeepsOrder(leaf, give, one);
    var last := Decide(give, ReadPath(leaf, give));
    DecideKeepsOrder(give, ReadPath(leaf, give), one);
    ReadKeepsOrder(leaf, last, one);
    var ask := AskLoaded(leaf, last);
    DecideKeepsOrder(give, ask, one);
    ReadKeepsOrder(leaf, Decide(give, ask), one);
    ReadKeepsOrder(leaf, ask, one);
    DecideKeepsOrder(give, ReadPath(leaf, Decide(give, ask)), one);
    DecideKeepsOrder(give, ReadPath(leaf, ask), one);
    LockKeepsOrder(m, Decide(give, ReadPath(leaf, Decide(give, ask))), {});
    TryKeepsOrder(m, Decide(give, ReadPath(leaf, ask)));
  }

  /** Every call keeps the order, whatever it decides. */
  lemma CallKeepsOrder(call: Call)
    requires Valid(call)
    ensures WellOrdered(Code(call), {})
  {
    assert WellOrdered(Return, {}) && Below({}, 1) && Below({}, 2);
    hide WellOrdered, LoadContainer, LoadLeaf, UnloadContainer, UnloadLeaf, Reconcile, SelectDefault, Section,
      DeactivateForRefresh, Unregister, Download, RemoveFromCache, UpdateCachedState, PublishCachedState;
    match call
    case CallLoadContainer(refreshed, selected) => LoadContainerKeepsOrder(refreshed, selected);
    case CallLoadLeaf(leaf) => LoadKeepsOrder(leaf, Return, {});
    case CallUnloadContainer(leaf) => UnloadContainerKeepsOrder(leaf);
    case CallUnloadLeaf(leaf) => UnloadKeepsOrder(leaf, Return, {});
    case CallReconcile(incoming, looked) => ReconcileKeepsOrder(incoming, looked);
    case CallEditVariants => SectionKeepsOrder(ContainerState, Return, {});
    case CallSelectDefault(selected) => SelectDefaultKeepsOrder(selected);
    case CallDeactivateForRefresh => DeactivateKeepsOrder();
    case CallUnregister(leaves, looked) => UnregisterKeepsOrder(leaves, looked);
    case CallDownload(leaf) => LeafCallsKeepOrder(leaf);
    case CallRemoveFromCache(leaf) => CacheCallsKeepOrder(leaf);
    case CallUpdateCachedState(leaf) => CacheCallsKeepOrder(leaf);
    case CallPublishCachedState(leaf) => LeafCallsKeepOrder(leaf);
  }

  // ---------------------------------------------------------------------
  // What the calls own
  // ---------------------------------------------------------------------

  /** On some path the program, holding this, comes to hold exactly that. */
  ghost predicate Owns(p: Program, held: set<Mutex>, target: set<Mutex>)
    decreases p
  {
    held == target ||
    match p
    case Return => false
    case Lock(m, rest) => Owns(rest, held + {m}, target)
    case Unlock(m, rest) => Owns(rest, held - {m}, target)
    case TryLock(m, locked, refused) => Owns(locked, held + {m}, target) || Owns(refused, held, target)
    case Decide(first, second) => Owns(first, held, target) || Owns(second, held, target)
  }

  lemma SectionOwns(m: Mutex, then_: Program, held: set<Mutex>, target: set<Mutex>)
    requires m !in held && Owns(then_, held, target)
    ensures Owns(Section(m, then_), held, target)
  {
    assert held + {m} - {m} == held;
  }

  lemma LockOwns(m: Mutex, then_: Program, held: set<Mutex>, target: set<Mutex>)
    requires Owns(then_, held + {m}, target)
    ensures Owns(Lock(m, then_), held, target) && forall q :: Owns(TryLock(m, then_, q), held, target)
  {
  }

  lemma AtTarget(p: Program, held: set<Mutex>)
    ensures Owns(p, held, held)
  {
  }

  lemma DecideOwns(a: Program, b: Program, held: set<Mutex>, target: set<Mutex>)
    requires Owns(a, held, target) || Owns(b, held, target)
    ensures Owns(Decide(a, b), held, target)
  {
  }

  /** With no leaf refusing, the transaction comes to own every leaf's lifecycle mutex on top of the container's. */
  lemma {:induction false} LockLeavesOwns(todo: seq<LeafId>, locked: seq<LeafId>, then_: Program)
    ensures Owns(LockLeaves(todo, locked, then_), Locked(locked), Locked(locked + todo))
    decreases |todo|
  {
    if todo == [] {
      assert locked + todo == locked;
      AtTarget(then_, Locked(locked));
    } else {
      var leaf, more, rest := todo[0], locked + [todo[0]], todo[1..];
      assert more + rest == locked + todo;
      assert Locked(locked) + {LeafLifecycle(leaf)} == Locked(more);
      assert LeafState(leaf) !in Locked(more);
      hide Owns, Locked, RollBack;
      var later := LockLeaves(rest, more, then_);
      LockLeavesOwns(rest, more, then_);
      var refused := Unlock(LeafLifecycle(leaf), RollBack(locked));
      DecideOwns(refused, later, Locked(more), Locked(locked + todo));
      SectionOwns(LeafState(leaf), Decide(refused, later), Locked(more), Locked(locked + todo));
      var read := ReadPath(leaf, Decide(refused, later));
      DecideOwns(refused, read, Locked(more), Locked(locked + todo));
      LockOwns(LeafLifecycle(leaf), Decide(refused, read), Locked(locked), Locked(locked + todo));
    }
  }

  lemma UnregisterOwns(leaves: seq<LeafId>, looked: seq<LeafId>)
    ensures Owns(Unregister(leaves, looked), {}, Locked(leaves))
  {
    assert Locked([]) == {} + {ContainerLifecycle} && [] + leaves == leaves;
    assert ContainerState !in Locked([]);
    hide Owns, Locked, LockLeaves, WhileLocked, EndUnregister, Section;
    var locking := LockLeaves(leaves, [], WhileLocked(looked, EndUnregister(leaves)));
    LockLeavesOwns(leaves, [], WhileLocked(looked, EndUnregister(leaves)));
    SectionOwns(ContainerState, locking, Locked([]), Locked(leaves));
    var body := Section(ContainerState, locking);
    DecideOwns(Unlock(ContainerLifecycle, Return), body, Locked([]), Locked(leaves));
    LockOwns(ContainerLifecycle, Decide(Unlock(ContainerLifecycle, Return), body), {}, Locked(leaves));
  }

  lemma LoadLeafOwns(leaf: LeafId, then_: Program, held: set<Mutex>)
    ensures Owns(LoadLeaf(leaf, then_), held, held + {LeafLifecycle(leaf)})
    ensures Owns(UnloadLeaf(leaf, then_), held, held + {LeafLifecycle(leaf)})
  {
    var m := LeafLifecycle(leaf);
    hide Owns, ReadPath, AskLoaded;
    var inside := LoadLeaf(leaf, then_).rest;
    AtTarget(inside, held + {m});
    LockOwns(m, inside, held, held + {m});
    var other := UnloadLeaf(leaf, then_).rest;
    AtTarget(other, held + {m});
    LockOwns(m, other, held, held + {m});
  }

  lemma LoadContainerOwns(refreshed: LeafId, selected: LeafId)
    ensures Owns(LoadContainer(refreshed, selected), {}, {ContainerLifecycle, LeafLifecycle(selected)})
  {
    var held, target := {} + {ContainerLifecycle}, {ContainerLifecycle, LeafLifecycle(selected)};
    assert held + {LeafLifecycle(selected)} == target;
    hide Owns, LoadLeaf, Section, DefaultLocked;
    var guard := Section(ContainerState, Unlock(ContainerLifecycle, Return));
    LoadLeafOwns(selected, guard, held);
    SectionOwns(ContainerState, LoadLeaf(selected, guard), held, target);
    var load := Lock(ContainerLifecycle, Section(ContainerState, LoadLeaf(selected, guard)));
    LockOwns(ContainerLifecycle, Section(ContainerState, LoadLeaf(selected, guard)), {}, target);
    var again := Lock(ContainerState,
        DefaultLocked(refreshed, DefaultLocked(refreshed, Unlock(ContainerState, Decide(Return, load)))));
    DecideOwns(load, again, {}, target);
    SectionOwns(ContainerState, Decide(load, again), {}, target);
  }

  lemma UnloadContainerOwns(leaf: LeafId)
    ensures Owns(UnloadContainer(leaf), {}, {ContainerLifecycle, LeafLifecycle(leaf)})
  {
    var held, target := {} + {ContainerLifecycle}, {ContainerLifecycle, LeafLifecycle(leaf)};
    assert held + {LeafLifecycle(leaf)} == target;
    hide Owns, UnloadLeaf;
    LoadLeafOwns(leaf, Unlock(ContainerLifecycle, Return), held);
    LockOwns(ContainerLifecycle, UnloadLeaf(leaf, Unlock(ContainerLifecycle, Return)), {}, target);
  }

  lemma ReconcileOwns(incoming: nat, looked: seq<LeafId>)
    ensures Owns(Reconcile(incoming, looked), {}, {ContainerLifecycle, ContainerState, IncomingState(incoming)})
  {
    var one := {} + {ContainerLifecycle};
    var two := one + {ContainerState};
    var three := two + {IncomingState(incoming)};
    assert three == {ContainerLifecycle, ContainerState, IncomingState(incoming)};
    hide Owns, ReadPaths;
    var work := ReadPaths(looked,
        Unlock(IncomingState(incoming), Unlock(ContainerState, Unlock(ContainerLifecycle, Return))));
    AtTarget(work, three);
    LockOwns(IncomingState(incoming), work, two, three);
    LockOwns(ContainerState, Lock(IncomingState(incoming), work), one, three);
    LockOwns(ContainerLifecycle, Lock(ContainerState, Lock(IncomingState(incoming), work)), {}, three);
  }

  lemma ShortCallsOwn(selected: LeafId)
    ensures Owns(EditVariants(), {}, {ContainerState}) && Owns(SelectDefault(selected), {}, {ContainerState})
    ensures Owns(DeactivateForRefresh(), {}, {ContainerLifecycle, ContainerState})
  {
    assert {} + {ContainerState} == {ContainerState};
    assert {} + {ContainerLifecycle} + {ContainerState} == {ContainerLifecycle, ContainerState};
    hide DefaultLocked;
  }

  lemma LeafCallsOwn(leaf: LeafId)
    ensures Owns(Download(leaf), {}, {LeafLifecycle(leaf)}) && Owns(RemoveFromCache(leaf), {}, {LeafLifecycle(leaf)})
    ensures Owns(UpdateCachedState(leaf), {}, {LeafLifecycle(leaf)})
    ensures Owns(PublishCachedState(leaf), {}, {LeafLifecycle(leaf)})
  {
    assert {} + {LeafLifecycle(leaf)} == {LeafLifecycle(leaf)};
    hide ReadPath, AskLoaded;
  }

  /** What a call works under: its own lifecycle mutex, its list, and in a transaction every leaf at once. */
  function Working(call: Call): set<Mutex> {
    match call
    case CallLoadContainer(_, selected) => {ContainerLifecycle, LeafLifecycle(selected)}
    case CallUnloadContainer(leaf) => {ContainerLifecycle, LeafLifecycle(leaf)}
    case CallReconcile(incoming, _) => {ContainerLifecycle, ContainerState, IncomingState(incoming)}
    case CallEditVariants => {ContainerState}
    case CallSelectDefault(_) => {ContainerState}
    case CallDeactivateForRefresh => {ContainerLifecycle, ContainerState}
    case CallUnregister(leaves, _) => {ContainerLifecycle} + set l | l in leaves :: LeafLifecycle(l)
    case _ => {LeafLifecycle(call.leaf)}
  }

  /** Every call gets to own what it works under. */
  lemma CallOwns(call: Call)
    ensures Owns(Code(call), {}, Working(call))
  {
    hide Owns, LoadContainer, LoadLeaf, UnloadContainer, UnloadLeaf, Reconcile, SelectDefault, EditVariants,
      DeactivateForRefresh, Unregister, Download, RemoveFromCache, UpdateCachedState, PublishCachedState;
    match call
    case CallLoadContainer(refreshed, selected) => LoadContainerOwns(refreshed, selected);
    case CallUnloadContainer(leaf) => UnloadContainerOwns(leaf);
    case CallReconcile(incoming, looked) => ReconcileOwns(incoming, looked);
    case CallEditVariants => ShortCallsOwn(0);
    case CallSelectDefault(selected) => ShortCallsOwn(selected);
    case CallDeactivateForRefresh => ShortCallsOwn(0);
    case CallUnregister(leaves, looked) => UnregisterOwns(leaves, looked);
    case CallLoadLeaf(leaf) =>
      LoadLeafOwns(leaf, Return, {});
      assert {} + {LeafLifecycle(leaf)} == {LeafLifecycle(leaf)};
    case CallUnloadLeaf(leaf) =>
      LoadLeafOwns(leaf, Return, {});
      assert {} + {LeafLifecycle(leaf)} == {LeafLifecycle(leaf)};
    case CallDownload(leaf) => LeafCallsOwn(leaf);
    case CallRemoveFromCache(leaf) => LeafCallsOwn(leaf);
    case CallUpdateCachedState(leaf) => LeafCallsOwn(leaf);
    case CallPublishCachedState(leaf) => LeafCallsOwn(leaf);
  }

  function CodeOf(calls: seq<Call>): (programs: seq<Program>)
    ensures |programs| == |calls| && forall i :: 0 <= i < |calls| ==> programs[i] == Code(calls[i])
  {
    seq(|calls|, i requires 0 <= i < |calls| => Code(calls[i]))
  }

  /**
    Any number of threads in any of these calls: whatever has happened so far, some
    thread can go on until all calls have returned and all mutexes are free.
  */
  lemma ModelCallsNeverDeadlock(calls: seq<Call>, run: seq<Move>)
    requires forall i :: 0 <= i < |calls| ==> Valid(calls[i])
    requires Legal(Start(CodeOf(calls)), run)
    ensures |run| <= Work(Start(CodeOf(calls)))
    ensures var s := Run(Start(CodeOf(calls)), run);
            (exists k :: 0 <= k < |s| && CanStep(s, k)) || (forall i :: 0 <= i < |s| ==> s[i] == Thread(Return, {}))
  {
    hide Code, WellOrdered, CanStep, Valid;
    forall i | 0 <= i < |calls|
      ensures WellOrdered(CodeOf(calls)[i], {})
    {
      CallKeepsOrder(calls[i]);
    }
    NoDeadlock(CodeOf(calls), run);
    EveryCallReturns(CodeOf(calls), run);
  }
}
