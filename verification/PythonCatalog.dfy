/**
  The in-place catalog refresh of the Python SDK (sdk/python/src/catalog.py:54-109,
  sdk/python/src/detail/model.py:29-87, sdk/python/src/detail/model_variant.py:29-57).

  Both indexes are rebuilt from a listing while the wrapper objects of surviving ids
  and aliases stay the same objects.
*/
module PythonCatalog {
  import opened CatalogListing
  import opened Positions

  class Variant {
    const id: string
    const alias: string
    var info: Info

    constructor (info: Info)
      ensures id == info.id && alias == info.alias && this.info == info
    {
      this.info, this.id, this.alias := info, info.id, info.alias;
    }

    method RefreshInfo(info: Info)
      modifies this`info
      ensures this.info == info
    {
      this.info := info;
    }
  }

  /** The first cached variant, else the first. */
  function Preferred(variants: seq<Variant>): (v: Variant)
    requires variants != []
    reads variants`info
    ensures v in variants
  {
    if |variants| == 1 then variants[0]
    else
      var before := Preferred(variants[..|variants| - 1]);
      if variants[|variants| - 1].info.cached && !before.info.cached then variants[|variants| - 1] else before
  }

  /** Default selection: the first cached variant in list order, if there is one. */
  lemma {:induction false} PreferredIsFirstCached(variants: seq<Variant>, k: nat)
    requires k < |variants| && variants[k].info.cached && forall j :: 0 <= j < k ==> !variants[j].info.cached
    ensures Preferred(variants) == variants[k]
  {
    if |variants| > 1 {
      var front := variants[..|variants| - 1];
      if k < |front| {
        PreferredIsFirstCached(front, k);
      } else {
        NoneCached(front);
      }
    }
  }

  lemma {:induction false} NoneCached(variants: seq<Variant>)
    requires variants != [] && forall j :: 0 <= j < |variants| ==> !variants[j].info.cached
    ensures Preferred(variants) == variants[0]
  {
    if |variants| > 1 { NoneCached(variants[..|variants| - 1]); }
  }

  class Model {
    const alias: string
    var variants: seq<Variant>
    var selected: Variant

    constructor (variant: Variant)
      ensures alias == variant.alias && variants == [variant] && selected == variant
    {
      alias, variants, selected := variant.alias, [variant], variant;
    }

    /** Refuses a variant of another alias. */
    method AddVariant(variant: Variant) returns (ok: bool)
      modifies this`variants, this`selected
      ensures ok == (variant.alias == alias)
      ensures variants == if ok then old(variants) + [variant] else old(variants)
      ensures selected == if ok && variant.info.cached && !old(selected).info.cached then variant else old(selected)
    {
      if variant.alias != alias {
        return false;
      }
      variants := variants + [variant];
      if variant.info.cached && !selected.info.cached {
        selected := variant;
      }
      return true;
    }

    method RefreshVariants(variants: seq<Variant>) returns (ok: bool)
      modifies this`variants
      ensures ok == (variants != [])
      ensures this.variants == if ok then variants else old(this.variants)
    {
      if variants == [] {
        return false;
      }
      this.variants := variants;
      return true;
    }
  }

  // ---------------------------------------------------------------------
  // The catalog
  // ---------------------------------------------------------------------

  /** The wrappers of a group, in list order. */
  function Resolve(infos: seq<Info>, byId: map<string, Variant>): (variants: seq<Variant>)
    requires forall info :: info in infos ==> info.id in byId
    ensures |variants| == |infos| && forall i :: 0 <= i < |infos| ==> variants[i] == byId[infos[i].id]
  {
    seq(|infos|, i requires 0 <= i < |infos| => byId[infos[i].id])
  }

  /** All wrappers of a group were made for one alias. */
  ghost predicate Uniform(variants: seq<Variant>) {
    forall i :: 0 <= i < |variants| ==> variants[i].alias == variants[0].alias
  }

  /** Model(first) and _add_variant for the others; refused if an alias differs. */
  method NewModel(variants: seq<Variant>) returns (ok: bool, model: Model)
    requires variants != []
    ensures ok == Uniform(variants) && fresh(model)
    ensures ok ==> model.variants == variants && model.alias == variants[0].alias
    ensures ok ==> model.selected == Preferred(variants)
  {
    model := new Model(variants[0]);
    for i := 1 to |variants|
      invariant fresh(model) && model.alias == variants[0].alias
      invariant model.variants == variants[..i] && Uniform(variants[..i])
      invariant model.selected == Preferred(variants[..i])
    {
      ok := model.AddVariant(variants[i]);
      if !ok {
        return;
      }
      assert variants[..i + 1][..i] == variants[..i];
    }
    assert variants[..|variants|] == variants;
    ok := true;
  }

  datatype Response = Failed | Invalid | Listing(models: seq<Info>)

  datatype Outcome = Skipped | CoreError | InvalidList | AliasMismatch | Updated

  const SIX_HOURS := 6 * 60 * 60

  ghost predicate OneEach(byAlias: map<string, Model>) {
    forall a, b :: a in byAlias && b in byAlias && byAlias[a] == byAlias[b] ==> a == b
  }

  /** What is left of an index when everything unlisted is deleted. */
  function Kept<T>(index: map<string, T>, listed: set<string>): map<string, T> {
    map k | k in index && k in listed :: index[k]
  }

  /** Every alias lists the id index's own wrappers, in the order of the listing. */
  ghost predicate GroupsFiled(lists: map<string, seq<Variant>>, byId: map<string, Variant>, models: seq<Info>) {
    forall a :: a in Aliases(models) ==>
      && a in lists && (forall info :: info in Group(models, a) ==> info.id in byId)
      && lists[a] == Resolve(Group(models, a), byId)
  }

  /** No new alias mixes wrappers that were made for different aliases. */
  ghost predicate NoMix(before: map<string, Model>, byId: map<string, Variant>, models: seq<Info>) {
    forall a :: a in Aliases(models) && a !in before ==>
      (forall info :: info in Group(models, a) ==> info.id in byId) && Uniform(Resolve(Group(models, a), byId))
  }

  lemma GroupsAreKnown(models: seq<Info>, byId: map<string, Variant>, a: string)
    requires byId.Keys == Ids(models)
    ensures forall info :: info in Group(models, a) ==> info.id in byId
  {
    forall info | info in Group(models, a)
      ensures info.id in byId
    {
      Listed(models, info);
    }
  }

  /** The alias that the wrapper of an id has or is about to get. */
  function AliasOf(known: map<string, Variant>, models: seq<Info>, id: string): string {
    if id in known then known[id].alias else if id in Ids(models) then FirstAlias(models, id) else ""
  }

  /** Before the refresh: no new alias groups ids whose wrappers have different aliases. */
  ghost predicate NoneRefused(aliases: map<string, Model>, known: map<string, Variant>, models: seq<Info>) {
    forall a :: a in Aliases(models) && a !in aliases ==> OneAlias(known, models, Group(models, a))
  }

  predicate OneAlias(known: map<string, Variant>, models: seq<Info>, group: seq<Info>) {
    forall i | 0 <= i < |group| :: AliasOf(known, models, group[i].id) == AliasOf(known, models, group[0].id)
  }

  lemma MadeAlias(known: map<string, Variant>, byId: map<string, Variant>, models: seq<Info>, news: set<Variant>,
      id: string)
    requires Made(Kept(known, Ids(models)), byId, models, news) && id in byId && id in Ids(models)
    ensures byId[id].alias == AliasOf(known, models, id)
  {
    hide Ids, FirstAlias;
    if id in known { assert id in Kept(known, Ids(models)); }
  }

  lemma UniformIsOneAlias(known: map<string, Variant>, byId: map<string, Variant>, models: seq<Info>,
      news: set<Variant>, group: seq<Info>)
    requires Made(Kept(known, Ids(models)), byId, models, news) && byId.Keys == Ids(models)
    requires forall info :: info in group ==> info.id in byId
    ensures Uniform(Resolve(group, byId)) <==> OneAlias(known, models, group)
  {
    hide Made, Ids, AliasOf;
    forall i | 0 <= i < |group|
      ensures Resolve(group, byId)[i].alias == AliasOf(known, models, group[i].id)
    {
      assert group[i] in group;
      MadeAlias(known, byId, models, news, group[i].id);
    }
  }

  /** The refusal can be told before the refresh. */
  lemma RefusalIsForeseen(aliases: map<string, Model>, known: map<string, Variant>, byId: map<string, Variant>,
                          models: seq<Info>, news: set<Variant>)
    requires Made(Kept(known, Ids(models)), byId, models, news) && byId.Keys == Ids(models)
    ensures NoMix(Kept(aliases, Aliases(models)), byId, models) <==> NoneRefused(aliases, known, models)
  {
    forall a | a in Aliases(models)
      ensures (forall info :: info in Group(models, a) ==> info.id in byId)
      ensures Uniform(Resolve(Group(models, a), byId)) <==> OneAlias(known, models, Group(models, a))
    {
      GroupsAreKnown(models, byId, a);
      UniformIsOneAlias(known, byId, models, news, Group(models, a));
    }
    hide Made, Ids, Aliases, Group, Uniform, OneAlias;
  }

  /** While no id is listed under another alias than its wrapper's, nothing is refused. */
  lemma NoneRefusedWhenAliasesStay(aliases: map<string, Model>, known: map<string, Variant>, models: seq<Info>)
    requires forall info :: info in models ==> AliasOf(known, models, info.id) == info.alias
    ensures NoneRefused(aliases, known, models)
  {
    hide AliasOf, Aliases;
    forall a | a in Aliases(models) && a !in aliases
      ensures OneAlias(known, models, Group(models, a))
    {
      var g := Group(models, a);
      forall i | 0 <= i < |g|
        ensures AliasOf(known, models, g[i].id) == a
      {
        assert g[i] in models;
      }
    }
  }

  /** The groups as wrapper lists. */
  ghost function WantedOf(groups: map<string, seq<Info>>, byId: map<string, Variant>): map<string, seq<Variant>>
    requires Known(groups, byId)
  {
    map a | a in groups :: Resolve(groups[a], byId)
  }

  ghost predicate Known(groups: map<string, seq<Info>>, byId: map<string, Variant>) {
    forall a, info :: a in groups && info in groups[a] ==> info.id in byId
  }

  lemma GroupsAreWanted(models: seq<Info>, order: seq<string>, groups: map<string, seq<Info>>,
      byId: map<string, Variant>)
    requires byId.Keys == Ids(models) && Grouped(models, order, groups)
    ensures Known(groups, byId)
    ensures Wanted(WantedOf(groups, byId), order) && Resolved(groups, byId, WantedOf(groups, byId))
  {
    forall a | a in groups
      ensures (forall info :: info in groups[a] ==> info.id in byId) && groups[a] != []
    {
      GroupsAreKnown(models, byId, a);
    }
  }

  lemma AcceptedIsNoMix(before: map<string, Model>, models: seq<Info>, order: seq<string>,
      groups: map<string, seq<Info>>, byId: map<string, Variant>)
    requires byId.Keys == Ids(models) && Grouped(models, order, groups)
    requires Known(groups, byId)
    ensures Accepted(before, WantedOf(groups, byId), order) <==> NoMix(before, byId, models)
  {
    hide Uniform, Group, Ids, Aliases;
  }

  lemma OrderIsAliases(models: seq<Info>, order: seq<string>, groups: map<string, seq<Info>>)
    requires Grouped(models, order, groups)
    ensures Elements(order) == Aliases(models)
  {
  }

  lemma NextIsMissing(order: seq<string>, n: nat)
    requires n < |order| && forall i, j :: 0 <= i < j < |order| ==> order[i] != order[j]
    ensures order[n] in Elements(order) && order[n] !in Elements(order[..n])
  {
  }

  lemma ElementsOfPrefix(order: seq<string>, n: nat)
    requires n <= |order|
    ensures Elements(order[..n]) <= Elements(order)
  {
  }

  lemma FiledGroups(lists: map<string, seq<Variant>>, models: seq<Info>, order: seq<string>,
      groups: map<string, seq<Info>>, byId: map<string, Variant>)
    requires byId.Keys == Ids(models) && Grouped(models, order, groups)
    requires Known(groups, byId)
    requires Filed(lists, WantedOf(groups, byId), order)
    ensures GroupsFiled(lists, byId, models)
  {
    hide Group, Ids, Aliases;
  }

  /** Every wrapper is filed under its own id. */
  ghost predicate IdsFit(byId: map<string, Variant>) { forall id :: id in byId ==> byId[id].id == id }

  /** Known ids keep their wrappers, new ids have a new one made for the alias they are listed under first. */
  ghost predicate Made(before: map<string, Variant>, byId: map<string, Variant>, models: seq<Info>,
      news: set<Variant>) {
    && (forall id :: id in before ==> id in byId && byId[id] == before[id])
    && (forall id :: id in byId && id !in before ==>
          id in Ids(models) && byId[id].alias == FirstAlias(models, id) && byId[id] in news)
  }

  lemma MadeGrows(before: map<string, Variant>, made: map<string, Variant>, byId: map<string, Variant>,
      models: seq<Info>,
                  i: nat, news: set<Variant>, more: set<Variant>)
    requires i < |models| && Made(before, made, models[..i], news) && before.Keys + Ids(models[..i]) == made.Keys
    requires byId.Keys == made.Keys + {models[i].id} && forall id :: id in made ==> byId[id] == made[id]
    requires models[i].id !in made ==> byId[models[i].id].alias == models[i].alias && byId[models[i].id] in more
    ensures Made(before, byId, models[..i + 1], news + more)
  {
    OneMoreId(models, i);
    OneMoreInfo(models, i);
    hide Ids, FirstAlias, Latest;
  }

  /** What the wrappers show. */
  ghost function Shown(byId: map<string, Variant>): map<string, Info>
    reads byId.Values`info
  {
    map id | id in byId :: byId[id].info
  }

  /** The latest listed entry of every listed id is shown. */
  ghost predicate Current(shown: map<string, Info>, models: seq<Info>) {
    forall id :: id in Ids(models) ==> id in shown && shown[id] == Latest(models, id)
  }

  lemma StartOfLoop(before: map<string, Variant>, shown: map<string, Info>)
    ensures Made(before, before, [], {}) && Current(shown, []) && Ids([]) == {}
  {
  }

  lemma CurrentGrows(shown: map<string, Info>, models: seq<Info>, i: nat)
    requires i < |models| && Current(shown, models[..i])
    ensures Current(shown[models[i].id := models[i]], models[..i + 1])
  {
    OneMoreId(models, i);
    OneMoreInfo(models, i);
    hide Ids, Latest;
  }

  /** The variant lists of the alias wrappers. */
  ghost function ListsOf(byAlias: map<string, Model>): map<string, seq<Variant>>
    reads byAlias.Values`variants
  {
    map a | a in byAlias :: byAlias[a].variants
  }

  ghost predicate SameModels(before: map<string, Model>, byAlias: map<string, Model>, news: set<Model>) {
    && (forall a :: a in before ==> a in byAlias && byAlias[a] == before[a])
    && (forall a :: a in byAlias && a !in before ==> byAlias[a] in news)
  }

  /** The groups are lists of known wrappers, in dictionary order. */
  ghost predicate Wanted(wanted: map<string, seq<Variant>>, order: seq<string>) {
    && (forall a :: a in order <==> a in wanted) && (forall a :: a in wanted ==> wanted[a] != [])
    && forall i, j :: 0 <= i < j < |order| ==> order[i] != order[j]
  }

  /** The aliases done so far have their groups. */
  ghost predicate Filed(lists: map<string, seq<Variant>>, wanted: map<string, seq<Variant>>, done: seq<string>) {
    forall a :: a in done ==> a in lists && a in wanted && lists[a] == wanted[a]
  }

  ghost predicate Accepted(before: map<string, Model>, wanted: map<string, seq<Variant>>, done: seq<string>) {
    forall a :: a in done && a !in before ==> a in wanted && Uniform(wanted[a])
  }

  ghost function Elements(done: seq<string>): set<string> { set a | a in done }

  lemma ElementsGrow(order: seq<string>, i: nat)
    requires i < |order|
    ensures Elements(order[..i + 1]) == Elements(order[..i]) + {order[i]}
    ensures order[i] in Elements(order[..i]) <==> order[i] in order[..i]
  {
    assert order[..i + 1] == order[..i] + [order[i]];
  }

  lemma SameModelsGrow(before: map<string, Model>, filed: map<string, Model>, byAlias: map<string, Model>,
      news: set<Model>, more: set<Model>)
    requires SameModels(before, filed, news) && SameModels(filed, byAlias, more)
    ensures SameModels(before, byAlias, news + more)
  {
  }

  /** The wrappers that each group stands for. */
  ghost predicate Resolved(groups: map<string, seq<Info>>, byId: map<string, Variant>,
      wanted: map<string, seq<Variant>>) {
    groups.Keys == wanted.Keys
    && forall a :: a in groups ==>
         (forall info :: info in groups[a] ==> info.id in byId) && wanted[a] == Resolve(groups[a], byId)
  }

  lemma ResolvedAt(groups: map<string, seq<Info>>, byId: map<string, Variant>, wanted: map<string, seq<Variant>>,
      a: string)
    requires Resolved(groups, byId, wanted) && a in wanted
    ensures a in groups && (forall info :: info in groups[a] ==> info.id in byId)
    ensures wanted[a] == Resolve(groups[a], byId)
  {
  }

  lemma WantedAt(wanted: map<string, seq<Variant>>, order: seq<string>, i: nat)
    requires Wanted(wanted, order) && i < |order|
    ensures order[i] in wanted && wanted[order[i]] != [] && order[i] !in order[..i]
  {
    assert order[i] in order;
  }

  lemma StartOfAliases(before: map<string, Model>, wanted: map<string, seq<Variant>>)
    ensures Elements([]) == {} && SameModels(before, before, {}) && Accepted(before, wanted, [])
    ensures forall lists :: Filed(lists, wanted, [])
  {
  }

  lemma FiledGrows(lists: map<string, seq<Variant>>, wanted: map<string, seq<Variant>>, order: seq<string>, i: nat)
    requires i < |order| && order[i] in wanted && Filed(lists, wanted, order[..i])
    ensures Filed(lists[order[i] := wanted[order[i]]], wanted, order[..i + 1])
  {
    assert order[..i + 1] == order[..i] + [order[i]];
  }

  lemma AcceptedGrows(before: map<string, Model>, wanted: map<string, seq<Variant>>, order: seq<string>, i: nat)
    requires i < |order| && order[i] in wanted && Accepted(before, wanted, order[..i])
    ensures Accepted(before, wanted, order[..i + 1]) <==> order[i] in before || Uniform(wanted[order[i]])
    ensures !Accepted(before, wanted, order[..i + 1]) ==> !Accepted(before, wanted, order)
  {
    hide Uniform;
    assert order[..i + 1] == order[..i] + [order[i]];
    assert order[i] in order && order[i] in order[..i + 1];
  }

  class Catalog {
    var byId: map<string, Variant>
    var byAlias: map<string, Model>
    var models: seq<Info>
    var lastFetch: int

    /** Every wrapper is filed under its own id, every alias has its own wrapper. */
    ghost predicate Valid()
      reads this`byId, this`byAlias
    {
      IdsFit(byId) && OneEach(byAlias)
    }

    /** The two indexes agree with a listing and with each other. */
    ghost predicate InStep(models: seq<Info>)
      reads this`byId, this`byAlias, byId.Values`info, byAlias.Values`variants
    {
      && byId.Keys == Ids(models) && byAlias.Keys == Aliases(models)
      && Current(Shown(byId), models) && GroupsFiled(ListsOf(byAlias), byId, models)
    }

    constructor (start: int)
      ensures Valid() && byId == map[] && byAlias == map[] && models == [] && lastFetch == start
    {
      byId, byAlias, models, lastFetch := map[], map[], [], start;
    }

    method EvictIds(ids: set<string>)
      modifies this`byId
      ensures byId == Kept(old(byId), ids) && byId.Values <= old(byId).Values
    {
      var stale := byId.Keys - ids;
      while stale != {}
        invariant stale <= old(byId).Keys - ids
        invariant byId == map id | id in old(byId) && (id in ids || id in stale) :: old(byId)[id]
        decreases stale
      {
        var id :| id in stale;
        byId, stale := byId - {id}, stale - {id};
      }
    }

    method EvictAliases(aliases: set<string>)
      modifies this`byAlias
      ensures byAlias == Kept(old(byAlias), aliases) && byAlias.Values <= old(byAlias).Values
    {
      var stale := byAlias.Keys - aliases;
      while stale != {}
        invariant stale <= old(byAlias).Keys - aliases
        invariant byAlias == map a | a in old(byAlias) && (a in aliases || a in stale) :: old(byAlias)[a]
        decreases stale
      {
        var a :| a in stale;
        byAlias, stale := byAlias - {a}, stale - {a};
      }
    }

    /** One listed model: refresh the wrapper of its id or make one. */
    method RefreshId(info: Info) returns (ghost news: set<Variant>)
      requires IdsFit(byId)
      modifies this`byId, byId.Values`info
      ensures IdsFit(byId) && byId.Keys == old(byId).Keys + {info.id}
      ensures Shown(byId) == old(Shown(byId))[info.id := info]
      ensures forall id :: id in old(byId) ==> byId[id] == old(byId)[id]
      ensures info.id !in old(byId) ==> byId[info.id] in news && byId[info.id].alias == info.alias
      ensures fresh(news) && byId.Values <= old(byId).Values + news
    {
      news := {};
      if info.id in byId {
        byId[info.id].RefreshInfo(info);
      } else {
        var variant := new Variant(info);
        byId := byId[info.id := variant];
        news := {variant};
      }
    }

    /** What the first loop has done after i listed models. */
    ghost predicate IdsDone(before: map<string, Variant>, models: seq<Info>, news: set<Variant>)
      reads this`byId, byId.Values`info
    {
      && IdsFit(byId) && byId.Keys == before.Keys + Ids(models)
      && Made(before, byId, models, news) && Current(Shown(byId), models)
    }

    method RefreshIdAt(models: seq<Info>, i: nat, ghost before: map<string, Variant>, ghost news: set<Variant>)
      returns (ghost more: set<Variant>)
      requires i < |models| && IdsDone(before, models[..i], news)
      modifies this`byId, byId.Values`info
      ensures IdsDone(before, models[..i + 1], news + more)
      ensures fresh(more) && byId.Values <= old(byId).Values + more
    {
      hide Ids, Current, Made, Shown, IdsFit;
      ghost var made, shown := byId, Shown(byId);
      OneMoreId(models, i);
      more := RefreshId(models[i]);
      CurrentGrows(shown, models, i);
      MadeGrows(before, made, byId, models, i, news, more);
    }

    /** The first loop: refresh the wrappers of known ids, make wrappers for new ones. */
    method RefreshIds(models: seq<Info>) returns (ghost news: set<Variant>)
      requires IdsFit(byId)
      modifies this`byId, byId.Values`info
      ensures IdsDone(old(byId), models, news)
      ensures fresh(news) && byId.Values <= old(byId).Values + news
    {
      ghost var before := byId;
      news := {};
      StartOfLoop(before, Shown(before));
      assert models[..0] == [] && models[..|models|] == models;
      hide Ids, Current, Made, Shown, IdsFit;
      for i := 0 to |models|
        invariant IdsDone(before, models[..i], news)
        invariant fresh(news) && byId.Values <= before.Values + news
      {
        ghost var more := RefreshIdAt(models, i, before, news);
        news := news + more;
      }
    }

    /** One alias of the second loop; refused when a new wrapper would mix aliases. */
    method RefreshAlias(alias: string, variants: seq<Variant>) returns (ok: bool, ghost news: set<Model>)
      requires OneEach(byAlias) && variants != []
      modifies this`byAlias, byAlias.Values`variants
      ensures ok == (alias in old(byAlias) || Uniform(variants))
      ensures ok ==> byAlias.Keys == old(byAlias).Keys + {alias}
      ensures ok ==> ListsOf(byAlias) == old(ListsOf(byAlias))[alias := variants]
      ensures !ok ==> byAlias == old(byAlias) && ListsOf(byAlias) == old(ListsOf(byAlias))
      ensures ok && alias !in old(byAlias) ==> byAlias[alias].selected == Preferred(variants)
      ensures SameModels(old(byAlias), byAlias, news) && OneEach(byAlias)
      ensures fresh(news) && byAlias.Values <= old(byAlias).Values + news
    {
      news := {};
      if alias in byAlias {
        ok := byAlias[alias].RefreshVariants(variants);
      } else {
        var model: Model;
        ok, model := NewModel(variants);
        if ok {
          byAlias := byAlias[alias := model];
          news := {model};
        }
      }
    }

    /** What the second loop has done after some aliases. */
    ghost predicate AliasesDone(before: map<string, Model>, wanted: map<string, seq<Variant>>, done: seq<string>,
        news: set<Model>)
      reads this`byAlias, byAlias.Values`variants
    {
      && byAlias.Keys == before.Keys + Elements(done) && Filed(ListsOf(byAlias), wanted, done)
      && SameModels(before, byAlias, news) && OneEach(byAlias)
    }

    method RefreshAliasAt(order: seq<string>, i: nat, variants: seq<Variant>, ghost wanted: map<string, seq<Variant>>,
                          ghost before: map<string, Model>, ghost news: set<Model>)
      returns (ok: bool, ghost more: set<Model>)
      requires i < |order| && AliasesDone(before, wanted, order[..i], news)
      requires order[i] in wanted && wanted[order[i]] == variants && variants != [] && order[i] !in order[..i]
      modifies this`byAlias, byAlias.Values`variants
      ensures ok == (order[i] in before || Uniform(variants))
      ensures AliasesDone(before, wanted, if ok then order[..i + 1] else order[..i], news + more)
      ensures fresh(more) && byAlias.Values <= old(byAlias).Values + more
    {
      hide OneEach, Uniform, Filed, ListsOf, SameModels;
      ghost var lists, filed := ListsOf(byAlias), byAlias;
      ElementsGrow(order, i);
      ok, more := RefreshAlias(order[i], variants);
      SameModelsGrow(before, filed, byAlias, news, more);
      if ok {
        FiledGrows(lists, wanted, order, i);
      }
    }

    /** One alias of the listing, as a step of the loop. */
    method RefreshListed(order: seq<string>, i: nat, groups: map<string, seq<Info>>,
        ghost wanted: map<string, seq<Variant>>,
                         ghost before: map<string, Model>, ghost news: set<Model>)
      returns (ok: bool, ghost more: set<Model>)
      requires i < |order| && Wanted(wanted, order) && Resolved(groups, byId, wanted)
      requires AliasesDone(before, wanted, order[..i], news) && Accepted(before, wanted, order[..i])
      modifies this`byAlias, byAlias.Values`variants
      ensures ok == Accepted(before, wanted, order[..i + 1])
      ensures !ok ==> !Accepted(before, wanted, order) && order[i] !in before
      ensures AliasesDone(before, wanted, if ok then order[..i + 1] else order[..i], news + more)
      ensures fresh(more) && byAlias.Values <= old(byAlias).Values + more
    {
      hide Uniform, Accepted, AliasesDone, Wanted, Resolved;
      WantedAt(wanted, order, i);
      ResolvedAt(groups, byId, wanted, order[i]);
      AcceptedGrows(before, wanted, order, i);
      ok, more := RefreshAliasAt(order, i, Resolve(groups[order[i]], byId), wanted, before, news);
    }

    /** The second loop, up to the first refused alias. */
    method RefreshAliases(order: seq<string>, groups: map<string, seq<Info>>, ghost wanted: map<string, seq<Variant>>)
      returns (ok: bool, ghost count: nat, ghost news: set<Model>)
      requires OneEach(byAlias) && Wanted(wanted, order) && Resolved(groups, byId, wanted)
      modifies this`byAlias, byAlias.Values`variants
      ensures count <= |order| && ok == (count == |order|) && ok == Accepted(old(byAlias), wanted, order)
      ensures !ok ==> order[count] !in old(byAlias)
      ensures AliasesDone(old(byAlias), wanted, order[..count], news)
      ensures fresh(news) && byAlias.Values <= old(byAlias).Values + news
    {
      ghost var before := byAlias;
      StartOfAliases(before, wanted);
      assert order[..0] == [] && order[..|order|] == order;
      assert AliasesDone(before, wanted, [], {});
      hide *;
      news := {};
      for i := 0 to |order|
        invariant AliasesDone(before, wanted, order[..i], news) && Accepted(before, wanted, order[..i])
        invariant fresh(news) && byAlias.Values <= before.Values + news
      {
        ghost var more;
        ok, more := RefreshListed(order, i, groups, wanted, before, news);
        news := news + more;
        if !ok {
          count := i;
          return;
        }
      }
      ok, count := true, |order|;
    }

    /** The id index: delete what is not listed, then refresh what is. */
    method ApplyIds(ids: set<string>, models: seq<Info>) returns (ghost news: set<Variant>)
      requires IdsFit(byId) && ids == Ids(models)
      modifies this`byId, byId.Values`info
      ensures IdsFit(byId) && byId.Keys == Ids(models) && Current(Shown(byId), models)
      ensures Made(Kept(old(byId), Ids(models)), byId, models, news) && fresh(news)
      ensures byId.Values <= old(byId).Values + news
    {
      EvictIds(ids);
      hide Ids, Current, Made, Shown;
      news := RefreshIds(models);
      assert Kept(old(byId), ids).Keys + ids == ids;
    }

    /** The alias index, once the id index is up to date. */
    method ApplyAliases(models: seq<Info>, order: seq<string>, groups: map<string, seq<Info>>) returns (ok: bool,
        ghost news: set<Model>)
      requires OneEach(byAlias) && byId.Keys == Ids(models) && Grouped(models, order, groups)
      modifies this`byAlias, byAlias.Values`variants
      ensures OneEach(byAlias) && byAlias.Keys <= Aliases(models)
      ensures SameModels(Kept(old(byAlias), Aliases(models)), byAlias, news) && fresh(news)
      ensures byAlias.Values <= old(byAlias).Values + news
      ensures ok == NoMix(Kept(old(byAlias), Aliases(models)), byId, models)
      ensures ok == (byAlias.Keys == Aliases(models))
      ensures ok ==> GroupsFiled(ListsOf(byAlias), byId, models)
    {
      assert groups.Keys == Aliases(models);
      EvictAliases(groups.Keys);
      ghost var kept := byAlias;
      GroupsAreWanted(models, order, groups, byId);
      ghost var count;
      OrderIsAliases(models, order, groups);
      hide Grouped, Known, NoMix, GroupsFiled, ListsOf, Filed, SameModels, Elements, Aliases, Ids, Wanted, Resolved;
      ok, count, news := RefreshAliases(order, groups, WantedOf(groups, byId));
      ElementsOfPrefix(order, count);
      if !ok {
        NextIsMissing(order, count);
      }
      AcceptedIsNoMix(kept, models, order, groups, byId);
      if ok {
        assert order[..count] == order;
        FiledGroups(ListsOf(byAlias), models, order, groups, byId);
      }
    }

    /** Everything between a valid listing and the time stamp. */
    method Apply(models: seq<Info>) returns (ok: bool, ghost newVariants: set<Variant>, ghost newModels: set<Model>)
      requires Valid()
      modifies this`byId, this`byAlias, byId.Values`info, byAlias.Values`variants
      ensures Valid() && byId.Keys == Ids(models) && Current(Shown(byId), models) && byAlias.Keys <= Aliases(models)
      ensures Made(Kept(old(byId), Ids(models)), byId, models, newVariants) && fresh(newVariants)
      ensures SameModels(Kept(old(byAlias), Aliases(models)), byAlias, newModels) && fresh(newModels)
      ensures byId.Values <= old(byId).Values + newVariants && byAlias.Values <= old(byAlias).Values + newModels
      ensures ok == NoneRefused(old(byAlias), old(byId), models) == (byAlias.Keys == Aliases(models))
      ensures ok ==> InStep(models)
    {
      hide Ids, Aliases, Grouped, Current, Shown, Made, SameModels, NoMix, NoneRefused, GroupsFiled, ListsOf, OneEach,
        IdsFit;
      var ids, order, groups := GroupByAlias(models);
      newVariants := ApplyIds(ids, models);
      ok, newModels := ApplyAliases(models, order, groups);
      RefusalIsForeseen(old(byAlias), old(byId), byId, models, newVariants);
    }

    /**
      _update_models: `now` and `later` are the two readings of the clock.  When an
      alias is refused, the id index is already up to date and nothing else is stamped.
    */
    method UpdateModels(force: bool, now: int, response: Response, later: int)
      returns (r: Outcome, ghost newVariants: set<Variant>, ghost newModels: set<Model>)
      requires Valid()
      modifies this, byId.Values`info, byAlias.Values`variants
      ensures Valid() && fresh(newVariants) && fresh(newModels)
      ensures byId.Values <= old(byId).Values + newVariants && byAlias.Values <= old(byAlias).Values + newModels
      ensures r == Skipped <==> !force && now - old(lastFetch) < SIX_HOURS
      ensures r == CoreError ==> response == Failed
      ensures r == InvalidList ==> response == Invalid
      ensures r == Skipped || r == CoreError || r == InvalidList ==>
                && unchanged(this) && Shown(byId) == old(Shown(byId)) && ListsOf(byAlias) == old(ListsOf(byAlias))
      ensures r == Updated || r == AliasMismatch ==>
                && response.Listing? && var listed := response.models;
                && byId.Keys == Ids(listed) && Current(Shown(byId), listed)
                && Made(Kept(old(byId), Ids(listed)), byId, listed, newVariants)
                && SameModels(Kept(old(byAlias), Aliases(listed)), byAlias, newModels)
                && (r == Updated <==> NoneRefused(old(byAlias), old(byId), listed))
                && byAlias.Keys <= Aliases(listed) && (r == Updated <==> byAlias.Keys == Aliases(listed))
      ensures r == Updated ==> InStep(response.models) && models == response.models && lastFetch == later
      ensures r == AliasMismatch ==> models == old(models) && lastFetch == old(lastFetch)
    {
      hide Ids, Aliases, Current, Shown, Made, SameModels, NoneRefused, GroupsFiled, ListsOf, OneEach, IdsFit;
      newVariants, newModels := {}, {};
      if !force && now - lastFetch < SIX_HOURS {
        return Skipped, {}, {};
      }
      match response
      case Failed => return CoreError, {}, {};
      case Invalid => return InvalidList, {}, {};
      case Listing(listed) =>
        var ok;
        ok, newVariants, newModels := Apply(listed);
        if !ok {
          return AliasMismatch, newVariants, newModels;
        }
        models := listed;
        lastFetch := later;
        return Updated, newVariants, newModels;
    }

    /** _resolve_model_ids, after the index has been healed: known ids in the order given. */
    method ResolveKnown(modelIds: seq<string>) returns (resolved: seq<Variant>)
      ensures resolved == KnownOf(modelIds, byId) && ResolvedInOrder(modelIds, byId, resolved)
    {
      KnownInOrder(modelIds, byId);
      resolved := [];
      for i := 0 to |modelIds|
        invariant resolved == KnownOf(modelIds[..i], byId)
      {
        assert modelIds[..i + 1][..i] == modelIds[..i];
        if modelIds[i] in byId {
          resolved := resolved + [byId[modelIds[i]]];
        }
      }
      assert modelIds[..|modelIds|] == modelIds;
    }
  }

  function KnownOf(modelIds: seq<string>, byId: map<string, Variant>): seq<Variant> {
    if modelIds == [] then []
    else
      var front, last := KnownOf(modelIds[..|modelIds| - 1], byId), modelIds[|modelIds| - 1];
      if last in byId then front + [byId[last]] else front
  }

  function KnownAt(modelIds: seq<string>, known: set<string>): set<nat> {
    set i: nat | i < |modelIds| && modelIds[i] in known
  }

  /** The wrappers of all known ids and of no others, in the order of the ids. */
  ghost predicate ResolvedInOrder(modelIds: seq<string>, byId: map<string, Variant>, resolved: seq<Variant>) {
    exists ids: seq<string> ::
      Picks(modelIds, KnownAt(modelIds, byId.Keys), ids) && WrappersOf(ids, byId, resolved)
  }

  ghost predicate WrappersOf(ids: seq<string>, byId: map<string, Variant>, variants: seq<Variant>) {
    |variants| == |ids| && forall k :: 0 <= k < |ids| ==> ids[k] in byId && variants[k] == byId[ids[k]]
  }

  lemma {:induction false} KnownInOrder(modelIds: seq<string>, byId: map<string, Variant>)
    ensures ResolvedInOrder(modelIds, byId, KnownOf(modelIds, byId))
  {
    if modelIds == [] {
      PicksNothing(modelIds);
      assert KnownAt(modelIds, byId.Keys) == {};
      assert WrappersOf([], byId, []);
    } else {
      var front, last := modelIds[..|modelIds| - 1], modelIds[|modelIds| - 1];
      var known, at := byId.Keys, KnownAt(front, byId.Keys);
      assert modelIds == front + [last];
      KnownInOrder(front, byId);
      var ids: seq<string> :| Picks(front, at, ids) && WrappersOf(ids, byId, KnownOf(front, byId));
      PicksMore(front, at, ids, last);
      hide Picks;
      assert KnownAt(modelIds, known) == at + if last in known then {|front|} else {};
      if last in known {
        assert WrappersOf(ids + [last], byId, KnownOf(modelIds, byId));
      } else {
        assert at + {} == at;
        assert WrappersOf(ids, byId, KnownOf(modelIds, byId));
      }
    }
  }

  // ---------------------------------------------------------------------
  // An id listed under another alias
  // ---------------------------------------------------------------------

  /** Listings of one and of two models, spelled out. */
  lemma SingleListing(x: Info)
    ensures Ids([x]) == {x.id} && Aliases([x]) == {x.alias}
    ensures Group([x], x.alias) == [x] && FirstAlias([x], x.id) == x.alias
  {
    var models := [x];
    assert models[..1] == models && models[..0] == [];
    OneMoreId(models, 0);
    OneMoreInGroup(models, 0, x.alias);
    OneMoreInfo(models, 0);
    assert Ids([]) == {} && Aliases([]) == {} && Group([], x.alias) == [];
  }

  lemma PairListing(y: Info, x: Info)
    requires y.alias == x.alias && y.id != x.id
    ensures Ids([y, x]) == {y.id, x.id} && Aliases([y, x]) == {x.alias} && Group([y, x], x.alias) == [y, x]
    ensures FirstAlias([y, x], y.id) == y.alias
  {
    var models := [y, x];
    assert models[..2] == models && models[..1] == [y];
    SingleListing(y);
    OneMoreId(models, 1);
    OneMoreInGroup(models, 1, x.alias);
    OneMoreInfo(models, 1);
  }

  lemma FirstListingIsAccepted(x: Info)
    ensures NoneRefused(map[], map[], [x])
  {
    SingleListing(x);
    hide Ids, Aliases, Group, FirstAlias;
  }

  lemma FirstWrapper(byId: map<string, Variant>, x: Info, news: set<Variant>)
    requires Made(Kept(map[], Ids([x])), byId, [x], news) && x.id in byId
    ensures byId[x.id].alias == x.alias
  {
    SingleListing(x);
    hide Ids, FirstAlias;
  }

  lemma RealiasedListingIsRefused(aliases: map<string, Model>, known: map<string, Variant>, y: Info, x: Info)
    requires y.id != x.id && y.alias == x.alias && x.alias !in aliases
    requires x.id in known && known[x.id].alias != x.alias && y.id !in known
    ensures !NoneRefused(aliases, known, [y, x])
  {
    PairListing(y, x);
    hide Ids, Aliases, Group, FirstAlias;
    var g := Group([y, x], x.alias);
    assert AliasOf(known, [y, x], g[1].id) != AliasOf(known, [y, x], g[0].id);
    assert !OneAlias(known, [y, x], g);
  }

  method CatalogWith(x: Info, now: int) returns (c: Catalog)
    ensures fresh(c) && c.Valid() && c.lastFetch == now && fresh(c.byId.Values) && fresh(c.byAlias.Values)
    ensures c.byId.Keys == {x.id} && c.byId[x.id].alias == x.alias && c.byAlias.Keys == {x.alias}
  {
    c := new Catalog(0);
    ghost var variants, models, r;
    FirstListingIsAccepted(x);
    SingleListing(x);
    assert Kept(c.byId, Ids([x])) == map[] && Kept(c.byAlias, Aliases([x])) == map[];
    hide Ids, Aliases, NoneRefused, Current, Shown;
    r, variants, models := c.UpdateModels(true, now, Listing([x]), now);
    FirstWrapper(c.byId, x, variants);
  }

  /**
    A listing that moves a known id to a new alias behind a new id is refused: the id
    index already shows it, the new alias is missing, and the time stamp is the old one.
  */
  method RealiasedIdIsRefused(x: Info, y: Info, newAlias: string, now: int) returns (c: Catalog, r: Outcome)
    requires y.id != x.id && newAlias != x.alias && y.alias == newAlias
    ensures r == AliasMismatch && c.byId.Keys == {x.id, y.id} && c.byAlias == map[] && c.lastFetch == now
  {
    c := CatalogWith(x, now);
    ghost var variants, models;
    var moved := x.(alias := newAlias);
    PairListing(y, moved);
    RealiasedListingIsRefused(c.byAlias, c.byId, y, moved);
    hide Ids, Aliases, NoneRefused, Made, Current, Shown, SameModels, Kept;
    r, variants, models := c.UpdateModels(true, now + 1, Listing([y, moved]), now + 1);
  }

  // ---------------------------------------------------------------------
  // Runs of refreshes
  // ---------------------------------------------------------------------

  /** What Made and SameModels say of survivors: listed keys keep their objects. */
  ghost predicate Keeps<T>(before: map<string, T>, after: map<string, T>, listed: set<string>) {
    forall k :: k in before && k in listed ==> k in after && after[k] == before[k]
  }

  lemma RefreshKeepsVariants(before: map<string, Variant>, after: map<string, Variant>, models: seq<Info>,
      news: set<Variant>)
    requires Made(Kept(before, Ids(models)), after, models, news)
    ensures Keeps(before, after, Ids(models))
  {
    hide Ids;
    forall id | id in before && id in Ids(models)
      ensures id in after && after[id] == before[id]
    {
      assert id in Kept(before, Ids(models));
    }
  }

  lemma RefreshKeepsModels(before: map<string, Model>, after: map<string, Model>, models: seq<Info>, news: set<Model>)
    requires SameModels(Kept(before, Aliases(models)), after, news)
    ensures Keeps(before, after, Aliases(models))
  {
    hide Aliases;
    forall a | a in before && a in Aliases(models)
      ensures a in after && after[a] == before[a]
    {
      assert a in Kept(before, Aliases(models));
    }
  }

  /** One call of _update_models: what the caller asks, the clock, and what the core answers. */
  datatype Refresh = Refresh(force: bool, now: int, response: Response, later: int)

  /** The outcomes with which a listing has been applied to the indexes, wholly or up to a refused alias. */
  predicate Applied(r: Outcome) { r == Updated || r == AliasMismatch }

  predicate IdStays(id: string, refreshes: seq<Refresh>, outcomes: seq<Outcome>)
    requires |outcomes| <= |refreshes|
  {
    forall i | 0 <= i < |outcomes| && Applied(outcomes[i]) ::
      refreshes[i].response.Listing? && id in Ids(refreshes[i].response.models)
  }

  predicate AliasStays(alias: string, refreshes: seq<Refresh>, outcomes: seq<Outcome>)
    requires |outcomes| <= |refreshes|
  {
    forall i | 0 <= i < |outcomes| && Applied(outcomes[i]) ::
      refreshes[i].response.Listing? && alias in Aliases(refreshes[i].response.models)
  }

  ghost predicate IdsLast(start: map<string, Variant>, byId: map<string, Variant>, refreshes: seq<Refresh>,
      outcomes: seq<Outcome>)
    requires |outcomes| <= |refreshes|
  {
    forall id :: id in start && IdStays(id, refreshes, outcomes) ==> id in byId && byId[id] == start[id]
  }

  ghost predicate AliasesLast(start: map<string, Model>, byAlias: map<string, Model>, refreshes: seq<Refresh>,
      outcomes: seq<Outcome>)
    requires |outcomes| <= |refreshes|
  {
    forall a :: a in start && AliasStays(a, refreshes, outcomes) ==> a in byAlias && byAlias[a] == start[a]
  }

  lemma IdsLastOneMore(start: map<string, Variant>, before: map<string, Variant>, after: map<string, Variant>,
                       refreshes: seq<Refresh>, outcomes: seq<Outcome>, r: Outcome)
    requires |outcomes| < |refreshes| && IdsLast(start, before, refreshes, outcomes)
    requires var response := refreshes[|outcomes|].response;
             if Applied(r) then response.Listing? && Keeps(before, after, Ids(response.models)) else after == before
    ensures IdsLast(start, after, refreshes, outcomes + [r])
  {
    hide Ids;
    var n := |outcomes|;
    assert (outcomes + [r])[n] == r;
    forall id | id in start && IdStays(id, refreshes, outcomes + [r])
      ensures IdStays(id, refreshes, outcomes)
    {
      forall i | 0 <= i < n && Applied(outcomes[i])
        ensures refreshes[i].response.Listing? && id in Ids(refreshes[i].response.models)
      {
        assert (outcomes + [r])[i] == outcomes[i];
      }
    }
  }

  lemma AliasesLastOneMore(start: map<string, Model>, before: map<string, Model>, after: map<string, Model>,
                           refreshes: seq<Refresh>, outcomes: seq<Outcome>, r: Outcome)
    requires |outcomes| < |refreshes| && AliasesLast(start, before, refreshes, outcomes)
    requires var response := refreshes[|outcomes|].response;
             if Applied(r) then response.Listing? && Keeps(before, after, Aliases(response.models)) else after == before
    ensures AliasesLast(start, after, refreshes, outcomes + [r])
  {
    hide Aliases;
    var n := |outcomes|;
    assert (outcomes + [r])[n] == r;
    forall a | a in start && AliasStays(a, refreshes, outcomes + [r])
      ensures AliasStays(a, refreshes, outcomes)
    {
      forall i | 0 <= i < n && Applied(outcomes[i])
        ensures refreshes[i].response.Listing? && a in Aliases(refreshes[i].response.models)
      {
        assert (outcomes + [r])[i] == outcomes[i];
      }
    }
  }

  /** One refresh of a run. */
  method RunUpdate(c: Catalog, refreshes: seq<Refresh>, outcomes: seq<Outcome>,
                   ghost ids: map<string, Variant>, ghost aliases: map<string, Model>)
    returns (r: Outcome, ghost newVariants: set<Variant>, ghost newModels: set<Model>)
    requires c.Valid() && |outcomes| < |refreshes|
    requires IdsLast(ids, c.byId, refreshes, outcomes) && AliasesLast(aliases, c.byAlias, refreshes, outcomes)
    modifies c, c.byId.Values`info, c.byAlias.Values`variants
    ensures c.Valid() && fresh(newVariants) && fresh(newModels)
    ensures c.byId.Values <= old(c.byId).Values + newVariants && c.byAlias.Values <= old(c.byAlias).Values + newModels
    ensures IdsLast(ids, c.byId, refreshes, outcomes + [r])
    ensures AliasesLast(aliases, c.byAlias, refreshes, outcomes + [r])
  {
    hide Ids, Aliases, NoneRefused, Made, Current, Shown, SameModels, Kept, Keeps, IdsLast, AliasesLast;
    var refresh := refreshes[|outcomes|];
    ghost var before, groups := c.byId, c.byAlias;
    r, newVariants, newModels := c.UpdateModels(refresh.force, refresh.now, refresh.response, refresh.later);
    if Applied(r) {
      RefreshKeepsVariants(before, c.byId, refresh.response.models, newVariants);
      RefreshKeepsModels(groups, c.byAlias, refresh.response.models, newModels);
    }
    IdsLastOneMore(ids, before, c.byId, refreshes, outcomes, r);
    AliasesLastOneMore(aliases, groups, c.byAlias, refreshes, outcomes, r);
  }

  /**
    Any run of refreshes, with any clock and any answers: an id or alias that every
    applied listing contains still stands for the object it stood for at the start.
  */
  method RunUpdates(c: Catalog, refreshes: seq<Refresh>) returns (outcomes: seq<Outcome>)
    requires c.Valid()
    modifies c, c.byId.Values`info, c.byAlias.Values`variants
    ensures c.Valid() && |outcomes| == |refreshes|
    ensures forall id :: id in old(c.byId) && IdStays(id, refreshes, outcomes) ==>
              id in c.byId && c.byId[id] == old(c.byId)[id]
    ensures forall a :: a in old(c.byAlias) && AliasStays(a, refreshes, outcomes) ==>
              a in c.byAlias && c.byAlias[a] == old(c.byAlias)[a]
  {
    ghost var ids, aliases := c.byId, c.byAlias;
    outcomes := [];
    ghost var newVariants: set<Variant>, newModels: set<Model> := {}, {};
    hide IdStays, AliasStays;
    for i := 0 to |refreshes|
      invariant c.Valid() && |outcomes| == i
      invariant IdsLast(ids, c.byId, refreshes, outcomes) && AliasesLast(aliases, c.byAlias, refreshes, outcomes)
      invariant fresh(newVariants) && c.byId.Values <= ids.Values + newVariants
      invariant fresh(newModels) && c.byAlias.Values <= aliases.Values + newModels
    {
      hide IdsLast, AliasesLast;
      var r;
      ghost var moreVariants, moreModels;
      r, moreVariants, moreModels := RunUpdate(c, refreshes, outcomes, ids, aliases);
      outcomes := outcomes + [r];
      newVariants, newModels := newVariants + moreVariants, newModels + moreModels;
    }
  }
}
