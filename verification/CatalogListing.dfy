/** The listing that the core returns to a catalog, by id and by alias. */
module CatalogListing {
  import opened Positions

  /** What the catalog looks at in a listed model; `data` is all the rest. */
  datatype Info = Info(id: string, alias: string, cached: bool, data: string)

  function Ids(models: seq<Info>): set<string> {
    if models == [] then {} else Ids(models[..|models| - 1]) + {models[|models| - 1].id}
  }

  function Aliases(models: seq<Info>): set<string> {
    if models == [] then {} else Aliases(models[..|models| - 1]) + {models[|models| - 1].alias}
  }

  lemma {:induction false} Listed(models: seq<Info>, info: Info)
    requires info in models
    ensures info.id in Ids(models) && info.alias in Aliases(models)
  {
    if info != models[|models| - 1] { Listed(models[..|models| - 1], info); }
  }

  /** The listed models of one alias, in list order. */
  function Group(models: seq<Info>, alias: string): (g: seq<Info>)
    ensures forall i :: 0 <= i < |g| ==> g[i] in models && g[i].alias == alias
    ensures g != [] <==> alias in Aliases(models)
  {
    if models == [] then []
    else
      var front, last := models[..|models| - 1], models[|models| - 1];
      if last.alias == alias then Group(front, alias) + [last] else Group(front, alias)
  }

  /** The last listed entry of an id. */
  function Latest(models: seq<Info>, id: string): (info: Info)
    requires id in Ids(models)
    ensures info in models && info.id == id
  {
    var last := models[|models| - 1];
    if last.id == id then last else Latest(models[..|models| - 1], id)
  }

  /** The alias under which an id is listed first. */
  function FirstAlias(models: seq<Info>, id: string): string
    requires id in Ids(models)
  {
    if id in Ids(models[..|models| - 1]) then FirstAlias(models[..|models| - 1], id) else models[|models| - 1].alias
  }

  /** The listed aliases in the order in which they first occur. */
  function AliasOrder(models: seq<Info>): seq<string> {
    if models == [] then []
    else
      var front, last := models[..|models| - 1], models[|models| - 1];
      if last.alias in Aliases(front) then AliasOrder(front) else AliasOrder(front) + [last.alias]
  }

  // ---------------------------------------------------------------------
  // What these say of the list
  // ---------------------------------------------------------------------

  lemma {:induction false} ListedKeys(models: seq<Info>)
    ensures Ids(models) == (set info | info in models :: info.id)
    ensures Aliases(models) == (set info | info in models :: info.alias)
  {
    if models != [] {
      var front, last := models[..|models| - 1], models[|models| - 1];
      assert models == front + [last];
      ListedKeys(front);
    }
  }

  function PositionsOf(models: seq<Info>, alias: string): set<nat> {
    set i: nat | i < |models| && models[i].alias == alias
  }

  /** A group is all entries of the alias and no others, in list order. */
  lemma {:induction false} GroupInOrder(models: seq<Info>, alias: string)
    ensures Picks(models, PositionsOf(models, alias), Group(models, alias))
  {
    if models == [] {
      PicksNothing(models);
      assert PositionsOf(models, alias) == {};
    } else {
      var front, last := models[..|models| - 1], models[|models| - 1];
      assert models == front + [last];
      GroupInOrder(front, alias);
      PicksMore(front, PositionsOf(front, alias), Group(front, alias), last);
      hide Picks;
      assert PositionsOf(models, alias)
          == PositionsOf(front, alias) + if last.alias == alias then {|front|} else {};
    }
  }

  /** The last entry of its id. */
  lemma {:induction false} LatestIsLast(models: seq<Info>, id: string) returns (i: nat)
    requires id in Ids(models)
    ensures i < |models| && models[i].id == id && Latest(models, id) == models[i]
    ensures forall j :: i < j < |models| ==> models[j].id != id
  {
    i := |models| - 1;
    if models[i].id != id { i := LatestIsLast(models[..i], id); }
  }

  /** The alias of the first entry of the id. */
  lemma {:induction false} FirstAliasIsFirst(models: seq<Info>, id: string) returns (i: nat)
    requires id in Ids(models)
    ensures i < |models| && models[i].id == id && FirstAlias(models, id) == models[i].alias
    ensures forall j :: 0 <= j < i ==> models[j].id != id
  {
    i := |models| - 1;
    var front := models[..i];
    ListedKeys(front);
    if id in Ids(front) {
      i := FirstAliasIsFirst(front, id);
    } else {
      forall j | 0 <= j < i
        ensures models[j].id != id
      {
        assert front[j] in front;
      }
    }
  }

  function AliasesOf(models: seq<Info>): (aliases: seq<string>)
    ensures |aliases| == |models| && forall i :: 0 <= i < |models| ==> aliases[i] == models[i].alias
  {
    seq(|models|, i requires 0 <= i < |models| => models[i].alias)
  }

  predicate IsFirst(models: seq<Info>, i: nat) {
    i < |models| && forall j | 0 <= j < i :: models[j].alias != models[i].alias
  }

  function Firsts(models: seq<Info>): set<nat> { set i: nat | i < |models| && IsFirst(models, i) }

  lemma FirstStays(front: seq<Info>, last: Info, i: nat)
    requires i < |front|
    ensures IsFirst(front + [last], i) == IsFirst(front, i)
  {
    var models := front + [last];
    assert forall j :: 0 <= j <= i ==> models[j] == front[j];
  }

  lemma LastIsFirst(front: seq<Info>, last: Info)
    ensures IsFirst(front + [last], |front|) <==> last.alias !in Aliases(front)
  {
    var models := front + [last];
    ListedKeys(front);
    hide Aliases;
    forall j | 0 <= j < |front|
      ensures models[j] in front
    {
      assert models[j] == front[j];
    }
    if info :| info in front && info.alias == last.alias {
      var i :| 0 <= i < |front| && front[i] == info;
      assert models[i].alias == models[|front|].alias;
    }
  }

  lemma FirstsGrow(front: seq<Info>, last: Info)
    ensures Firsts(front + [last]) == Firsts(front) + if last.alias in Aliases(front) then {} else {|front|}
  {
    LastIsFirst(front, last);
    var models, added := front + [last], if last.alias in Aliases(front) then {} else {|front|};
    forall i: nat | i < |models|
      ensures IsFirst(models, i) <==> i in Firsts(front) + added
    {
      if i < |front| { FirstStays(front, last, i); }
      hide Aliases, IsFirst;
    }
    hide Aliases, IsFirst;
  }

  /** Every alias once, where it first occurs. */
  lemma {:induction false} AliasOrderIsFirst(models: seq<Info>)
    ensures Picks(AliasesOf(models), Firsts(models), AliasOrder(models))
  {
    if models == [] {
      PicksNothing(AliasesOf(models));
      assert Firsts(models) == {};
    } else {
      var front, last := models[..|models| - 1], models[|models| - 1];
      assert models == front + [last] && AliasesOf(models) == AliasesOf(front) + [last.alias];
      AliasOrderIsFirst(front);
      FirstsGrow(front, last);
      PicksMore(AliasesOf(front), Firsts(front), AliasOrder(front), last.alias);
      hide Picks, Aliases, Firsts;
      assert Firsts(front) + {} == Firsts(front);
    }
  }

  lemma OneMoreId(models: seq<Info>, i: nat)
    requires i < |models|
    ensures Ids(models[..i + 1]) == Ids(models[..i]) + {models[i].id}
    ensures Aliases(models[..i + 1]) == Aliases(models[..i]) + {models[i].alias}
  {
    assert models[..i + 1][..i] == models[..i];
  }

  lemma OneMoreInGroup(models: seq<Info>, i: nat, alias: string)
    requires i < |models|
    ensures Group(models[..i + 1], alias) ==
            if models[i].alias == alias then Group(models[..i], alias) + [models[i]] else Group(models[..i], alias)
  {
    assert models[..i + 1][..i] == models[..i];
  }

  lemma OneMoreInfo(models: seq<Info>, i: nat)
    requires i < |models|
    ensures models[i].id in Ids(models[..i + 1]) && Latest(models[..i + 1], models[i].id) == models[i]
    ensures forall id :: id in Ids(models[..i]) ==>
              id in Ids(models[..i + 1]) && FirstAlias(models[..i + 1], id) == FirstAlias(models[..i], id)
    ensures forall id :: id in Ids(models[..i]) && id != models[i].id ==>
              Latest(models[..i + 1], id) == Latest(models[..i], id)
    ensures models[i].id !in Ids(models[..i]) ==> FirstAlias(models[..i + 1], models[i].id) == models[i].alias
  {
    assert models[..i + 1][..i] == models[..i];
  }

  lemma OneMoreInOrder(models: seq<Info>, i: nat)
    requires i < |models|
    ensures AliasOrder(models[..i + 1]) ==
            if models[i].alias in Aliases(models[..i]) then AliasOrder(models[..i])
            else AliasOrder(models[..i]) + [models[i].alias]
  {
    assert models[..i + 1][..i] == models[..i];
  }

  /** The groups of a listing and the order in which its aliases first occur. */
  ghost predicate Grouped(models: seq<Info>, order: seq<string>, groups: map<string, seq<Info>>) {
    && order == AliasOrder(models) && groups.Keys == Aliases(models)
    && (forall a :: a in groups ==> groups[a] == Group(models, a))
    && Enumerates(order, groups.Keys)
  }

  /** The groups after one more listed model. */
  function GroupsWith(groups: map<string, seq<Info>>, info: Info): map<string, seq<Info>> {
    groups[info.alias := (if info.alias in groups then groups[info.alias] else []) + [info]]
  }

  lemma GroupHasGrown(models: seq<Info>, i: nat, order: seq<string>, groups: map<string, seq<Info>>, a: string)
    requires i < |models| && Grouped(models[..i], order, groups)
    requires a in groups || a == models[i].alias
    ensures GroupsWith(groups, models[i])[a] == Group(models[..i + 1], a)
  {
    OneMoreInGroup(models, i, a);
    if a !in groups { assert Group(models[..i], a) == []; }
  }

  /** The order enumerates the groups, each once. */
  ghost predicate Enumerates(order: seq<string>, keys: set<string>) {
    && (forall a :: a in order <==> a in keys) && (forall i, j :: 0 <= i < j < |order| ==> order[i] != order[j])
  }

  lemma OrderGrows(order: seq<string>, keys: set<string>, a: string)
    requires Enumerates(order, keys)
    ensures Enumerates(if a in keys then order else order + [a], keys + {a})
  {
  }

  lemma GroupedGrows(models: seq<Info>, i: nat, order: seq<string>, groups: map<string, seq<Info>>)
    requires i < |models| && Grouped(models[..i], order, groups)
    ensures var a := models[i].alias;
            Grouped(models[..i + 1], if a in groups then order else order + [a], GroupsWith(groups, models[i]))
  {
    OneMoreId(models, i);
    OneMoreInOrder(models, i);
    var next := GroupsWith(groups, models[i]);
    forall a | a in next
      ensures next[a] == Group(models[..i + 1], a)
    {
      GroupHasGrown(models, i, order, groups, a);
    }
    OrderGrows(order, groups.Keys, models[i].alias);
    hide Group, Aliases, AliasOrder, Enumerates;
    assert next.Keys == groups.Keys + {models[i].alias};
  }

  lemma NothingGrouped()
    ensures Ids([]) == {} && Grouped([], [], map[])
  {
  }

  lemma GroupedInOrder(models: seq<Info>, order: seq<string>, groups: map<string, seq<Info>>)
    requires Grouped(models, order, groups)
    ensures Ids(models) == (set info | info in models :: info.id)
    ensures groups.Keys == (set info | info in models :: info.alias)
    ensures Picks(AliasesOf(models), Firsts(models), order)
    ensures forall a :: a in groups ==> Picks(models, PositionsOf(models, a), groups[a])
  {
    ListedKeys(models);
    AliasOrderIsFirst(models);
    hide Ids, Aliases, Group, AliasOrder, Picks, Firsts, PositionsOf;
    forall a | a in groups
      ensures Picks(models, PositionsOf(models, a), groups[a])
    {
      GroupInOrder(models, a);
    }
  }

  /** fresh_ids and fresh_alias_groups, with the aliases in the order of the dictionary. */
  method GroupByAlias(models: seq<Info>) returns (ids: set<string>, order: seq<string>, groups: map<string, seq<Info>>)
    ensures ids == Ids(models) && Grouped(models, order, groups)
    ensures ids == (set info | info in models :: info.id) && groups.Keys == (set info | info in models :: info.alias)
    ensures Picks(AliasesOf(models), Firsts(models), order)
    ensures forall a :: a in groups ==> Picks(models, PositionsOf(models, a), groups[a])
  {
    ids, order, groups := {}, [], map[];
    NothingGrouped();
    assert models[..0] == [] && models[..|models|] == models;
    hide *;
    for i := 0 to |models|
      invariant ids == Ids(models[..i]) && Grouped(models[..i], order, groups)
    {
      OneMoreId(models, i);
      GroupedGrows(models, i, order, groups);
      ids := ids + {models[i].id};
      order := if models[i].alias in groups then order else order + [models[i].alias];
      groups := GroupsWith(groups, models[i]);
    }
    GroupedInOrder(models, order, groups);
  }
}
