/**
  Applying a model list in the Rust SDK (sdk/rust/src/catalog.rs:276-373,
  sdk/rust/src/detail/model.rs:147-180).

  Every refresh builds both maps from scratch and then puts old objects back where
  the fingerprint of a key is unchanged.
*/
module RustCatalog {
  import opened CatalogListing
  import opened Positions

  datatype Option<+T> = None | Some(value: T)

  /** A group while it is being built: an owned value. */
  datatype Built = Built(variants: seq<Info>, selected: nat)

  /** Model::add_variant: the first cached variant becomes the selected one. */
  function AddVariant(b: Built, variant: Info): Built
    requires b.selected < |b.variants| + 1
  {
    var variants := b.variants + [variant];
    Built(variants, if variant.cached && !variants[b.selected].cached then |variants| - 1 else b.selected)
  }

  /** An `Arc<Model>`; its variants never change, its selection may. */
  class Model {
    const variants: seq<Info>
    var selected: nat

    constructor (built: Built)
      ensures variants == built.variants && selected == built.selected
    {
      variants, selected := built.variants, built.selected;
    }
  }

  /** `(id, cached)` of every variant in order. */
  function Fingerprint(variants: seq<Info>): (f: seq<(string, bool)>)
    ensures |f| == |variants| && forall i :: 0 <= i < |f| ==> f[i] == (variants[i].id, variants[i].cached)
  {
    seq(|variants|, i requires 0 <= i < |variants| => (variants[i].id, variants[i].cached))
  }

  /** The first cached variant, else the first: what a fresh group selects. */
  function FirstCached(variants: seq<Info>): (k: nat)
    ensures variants != [] ==> k < |variants|
  {
    if |variants| <= 1 then 0
    else
      var front := variants[..|variants| - 1];
      var k := FirstCached(front);
      if variants[|variants| - 1].cached && !front[k].cached then |variants| - 1 else k
  }

  lemma {:induction false} FirstCachedIsFirst(variants: seq<Info>, k: nat)
    requires k < |variants| && variants[k].cached && forall j :: 0 <= j < k ==> !variants[j].cached
    ensures FirstCached(variants) == k
  {
    if |variants| > 1 {
      var front := variants[..|variants| - 1];
      if k < |front| { FirstCachedIsFirst(front, k); } else { NoneIsCached(front); }
    }
  }

  lemma {:induction false} NoneIsCached(variants: seq<Info>)
    requires forall j :: 0 <= j < |variants| ==> !variants[j].cached
    ensures FirstCached(variants) == 0
  {
    if |variants| > 1 { NoneIsCached(variants[..|variants| - 1]); }
  }

  // ---------------------------------------------------------------------
  // Merging with the old maps
  // ---------------------------------------------------------------------

  /** Reuse the old object of a key whose fingerprint is unchanged. */
  function Merge(old_: map<string, Model>, fresh_: map<string, Model>): map<string, Model> {
    map k | k in fresh_ ::
      if k in old_ && Fingerprint(old_[k].variants) == Fingerprint(fresh_[k].variants) then old_[k] else fresh_[k]
  }

  function Contents(index: map<string, Model>): map<string, seq<Info>> { map k | k in index :: index[k].variants }

  /** What the maps would show if they were built from scratch. */
  ghost function AliasContents(infos: seq<Info>): map<string, seq<Info>> {
    map a | a in Aliases(infos) :: Group(infos, a)
  }

  ghost function IdContents(infos: seq<Info>): map<string, seq<Info>> {
    map id | id in Ids(infos) :: [Latest(infos, id)]
  }

  /** Per id everything but `cached` is fixed. */
  ghost predicate Described(infos: seq<Info>, fields: map<string, Info>) {
    forall i :: 0 <= i < |infos| ==>
      infos[i].id in fields && infos[i] == fields[infos[i].id].(cached := infos[i].cached)
  }

  ghost predicate AllDescribed(contents: map<string, seq<Info>>, fields: map<string, Info>) {
    forall k :: k in contents ==> Described(contents[k], fields)
  }

  /** With fixed fields a fingerprint determines the whole sequence. */
  lemma FingerprintDetermines(a: seq<Info>, b: seq<Info>, fields: map<string, Info>)
    requires Described(a, fields) && Described(b, fields) && Fingerprint(a) == Fingerprint(b)
    ensures a == b
  {
    assert |a| == |Fingerprint(a)| == |Fingerprint(b)| == |b|;
    forall i | 0 <= i < |a|
      ensures a[i] == b[i]
    {
      assert Fingerprint(a)[i] == Fingerprint(b)[i];
    }
  }

  /** Then reusing old objects cannot be seen in what the maps show. */
  lemma ReuseIsInvisible(old_: map<string, Model>, fresh_: map<string, Model>, fields: map<string, Info>)
    requires AllDescribed(Contents(old_), fields) && AllDescribed(Contents(fresh_), fields)
    ensures Contents(Merge(old_, fresh_)) == Contents(fresh_)
  {
    forall k | k in fresh_
      ensures Merge(old_, fresh_)[k].variants == fresh_[k].variants
    {
      assert Described(Contents(fresh_)[k], fields);
      if k in old_ && Fingerprint(old_[k].variants) == Fingerprint(fresh_[k].variants) {
        assert Described(Contents(old_)[k], fields);
        FingerprintDetermines(old_[k].variants, fresh_[k].variants, fields);
      }
    }
  }

  lemma {:induction false} GroupIsDescribed(infos: seq<Info>, fields: map<string, Info>, alias: string)
    requires Described(infos, fields)
    ensures Described(Group(infos, alias), fields)
  {
    var g := Group(infos, alias);
    forall i | 0 <= i < |g|
      ensures g[i].id in fields && g[i] == fields[g[i].id].(cached := g[i].cached)
    {
      assert g[i] in infos;
    }
  }

  lemma ListingIsDescribed(infos: seq<Info>, fields: map<string, Info>)
    requires Described(infos, fields)
    ensures AllDescribed(AliasContents(infos), fields) && AllDescribed(IdContents(infos), fields)
  {
    forall a | a in Aliases(infos)
      ensures Described(Group(infos, a), fields)
    {
      GroupIsDescribed(infos, fields, a);
    }
    forall id | id in Ids(infos)
      ensures Described([Latest(infos, id)], fields)
    {
      assert Latest(infos, id) in infos;
    }
  }

  /** The finished group of an alias. */
  function BuiltOf(infos: seq<Info>, alias: string): (b: Built)
    ensures alias in Aliases(infos) ==> b.selected < |b.variants|
  {
    Built(Group(infos, alias), FirstCached(Group(infos, alias)))
  }

  function GroupsOf(infos: seq<Info>): map<string, Built> { map a | a in Aliases(infos) :: BuiltOf(infos, a) }

  /** Every group selects one of its variants. */
  predicate Selecting(groups: map<string, Built>) {
    forall a | a in groups :: groups[a].selected < |groups[a].variants|
  }

  /** or_insert_with_key(from_group) and add_variant. */
  function AddToGroup(groups: map<string, Built>, info: Info): map<string, Built>
    requires Selecting(groups)
  {
    groups[info.alias := AddVariant(if info.alias in groups then groups[info.alias] else Built([], 0), info)]
  }

  lemma GroupGrows(infos: seq<Info>, i: nat, a: string)
    requires i < |infos| && a in Aliases(infos[..i + 1])
    ensures BuiltOf(infos[..i + 1], a) ==
            if infos[i].alias == a
            then AddVariant(if a in Aliases(infos[..i]) then BuiltOf(infos[..i], a) else Built([], 0), infos[i])
            else BuiltOf(infos[..i], a)
  {
    OneMoreInGroup(infos, i, a);
    var g := Group(infos[..i], a);
    assert (g + [infos[i]])[..|g|] == g;
  }

  lemma GroupsSelect(infos: seq<Info>)
    ensures Selecting(GroupsOf(infos))
  {
    hide Aliases, Group, FirstCached;
  }

  lemma GroupsGrow(infos: seq<Info>, i: nat)
    requires i < |infos| && Selecting(GroupsOf(infos[..i]))
    ensures GroupsOf(infos[..i + 1]) == AddToGroup(GroupsOf(infos[..i]), infos[i])
  {
    OneMoreId(infos, i);
    hide BuiltOf, Aliases, AddVariant, Selecting;
    forall a | a in Aliases(infos[..i + 1])
      ensures GroupsOf(infos[..i + 1])[a] == AddToGroup(GroupsOf(infos[..i]), infos[i])[a]
    {
      GroupGrows(infos, i, a);
    }
  }

  lemma IdsGrow(infos: seq<Info>, i: nat)
    requires i < |infos|
    ensures IdContents(infos[..i + 1]) == IdContents(infos[..i])[infos[i].id := [infos[i]]]
  {
    OneMoreId(infos, i);
    OneMoreInfo(infos, i);
  }

  lemma ContentsGrow(index: map<string, Model>, k: string, model: Model)
    ensures Contents(index[k := model]) == Contents(index)[k := model.variants]
  {
  }

  lemma SharedShow(shared: map<string, Model>, groups: map<string, Built>, infos: seq<Info>)
    requires groups == GroupsOf(infos) && shared.Keys == groups.Keys
    requires forall a :: a in shared ==> Built(shared[a].variants, shared[a].selected) == groups[a]
    ensures Contents(shared) == AliasContents(infos)
    ensures forall a :: a in shared ==> shared[a].selected == FirstCached(Group(infos, a))
  {
    hide Group, FirstCached;
  }

  class Catalog {
    var byAlias: map<string, Model>
    var byId: map<string, Model>

    constructor ()
      ensures byAlias == map[] && byId == map[]
    {
      byAlias, byId := map[], map[];
    }

    /** The build loop. */
    method Build(infos: seq<Info>) returns (groups: map<string, Built>, ids: map<string, Model>)
      ensures groups == GroupsOf(infos) && Contents(ids) == IdContents(infos)
      ensures forall id :: id in ids ==> fresh(ids[id]) && ids[id].selected == 0
    {
      groups, ids := map[], map[];
      assert infos[..0] == [] && infos[..|infos|] == infos;
      for i := 0 to |infos|
        invariant groups == GroupsOf(infos[..i]) && Contents(ids) == IdContents(infos[..i])
        invariant forall id :: id in ids ==> fresh(ids[id]) && ids[id].selected == 0
      {
        GroupsSelect(infos[..i]);
        GroupsGrow(infos, i);
        IdsGrow(infos, i);
        hide GroupsOf, IdContents, Contents;
        var single := new Model(Built([infos[i]], 0));
        ContentsGrow(ids, infos[i].id, single);
        ids := ids[infos[i].id := single];
        groups := AddToGroup(groups, infos[i]);
      }
    }

    /** Arc::new for every finished group. */
    method Share(groups: map<string, Built>) returns (shared: map<string, Model>)
      ensures shared.Keys == groups.Keys
      ensures forall a :: a in shared ==> fresh(shared[a]) && Built(shared[a].variants, shared[a].selected) == groups[a]
    {
      shared := map[];
      var rest := groups.Keys;
      while rest != {}
        invariant rest <= groups.Keys && shared.Keys == groups.Keys - rest
        invariant forall a :: a in shared ==> fresh(shared[a])
        invariant forall a :: a in shared ==> Built(shared[a].variants, shared[a].selected) == groups[a]
        decreases rest
      {
        var a :| a in rest;
        var model := new Model(groups[a]);
        shared, rest := shared[a := model], rest - {a};
      }
    }

    /**
      apply_model_list: a key keeps its object exactly if it was there with the same
      fingerprint; every other key gets a new one.  Selections of kept objects stay.
    */
    method ApplyModelList(infos: seq<Info>)
      returns (ghost freshAliases: map<string, Model>, ghost freshIds: map<string, Model>)
      modifies this
      ensures byAlias == Merge(old(byAlias), freshAliases) && Contents(freshAliases) == AliasContents(infos)
      ensures byId == Merge(old(byId), freshIds) && Contents(freshIds) == IdContents(infos)
      ensures Contents(byAlias) == MergeContents(old(Contents(byAlias)), AliasContents(infos))
      ensures Contents(byId) == MergeContents(old(Contents(byId)), IdContents(infos))
      ensures forall a :: a in freshAliases ==>
                fresh(freshAliases[a]) && freshAliases[a].selected == FirstCached(Group(infos, a))
      ensures forall id :: id in freshIds ==> fresh(freshIds[id]) && freshIds[id].selected == 0
    {
      hide Merge, Group, FirstCached, Contents, MergeContents, IdContents, Ids, Aliases;
      var groups, ids := Build(infos);
      var aliases := Share(groups);
      SharedShow(aliases, groups, infos);
      MergeShows(byAlias, aliases);
      MergeShows(byId, ids);
      freshAliases, freshIds := aliases, ids;
      byAlias := Merge(byAlias, aliases);
      byId := Merge(byId, ids);
    }
  }

  /** A key of the listing keeps its object exactly if its `(id, cached)` sequence is unchanged. */
  lemma KeptExactlyWhenUnchanged(old_: map<string, Model>, fresh_: map<string, Model>, k: string)
    requires k in fresh_ && forall j :: j in old_ ==> old_[j] != fresh_[k]
    ensures k in Merge(old_, fresh_)
    ensures (k in old_ && Merge(old_, fresh_)[k] == old_[k]) <==>
            (k in old_ && Fingerprint(old_[k].variants) == Fingerprint(fresh_[k].variants))
    ensures Fingerprint(Merge(old_, fresh_)[k].variants) == Fingerprint(fresh_[k].variants)
  {
  }

  // ---------------------------------------------------------------------
  // Runs of refreshes
  // ---------------------------------------------------------------------

  function MergeContents(old_: map<string, seq<Info>>, fresh_: map<string, seq<Info>>): map<string, seq<Info>> {
    map k | k in fresh_ :: if k in old_ && Fingerprint(old_[k]) == Fingerprint(fresh_[k]) then old_[k] else fresh_[k]
  }

  lemma MergeShows(old_: map<string, Model>, fresh_: map<string, Model>)
    ensures Contents(Merge(old_, fresh_)) == MergeContents(Contents(old_), Contents(fresh_))
  {
    hide Fingerprint;
  }

  /** What a map shows after refreshes that would build these maps from scratch. */
  ghost function Shown(start: map<string, seq<Info>>, built: seq<map<string, seq<Info>>>): map<string, seq<Info>> {
    if built == [] then start else MergeContents(Shown(start, built[..|built| - 1]), built[|built| - 1])
  }

  lemma MergeDescribed(old_: map<string, seq<Info>>, fresh_: map<string, seq<Info>>, fields: map<string, Info>)
    requires AllDescribed(old_, fields) && AllDescribed(fresh_, fields)
    ensures MergeContents(old_, fresh_) == fresh_
  {
    forall k | k in fresh_
      ensures MergeContents(old_, fresh_)[k] == fresh_[k]
    {
      if k in old_ && Fingerprint(old_[k]) == Fingerprint(fresh_[k]) {
        FingerprintDetermines(old_[k], fresh_[k], fields);
      }
    }
  }

  lemma {:induction false} RunShowsLast(start: map<string, seq<Info>>, built: seq<map<string, seq<Info>>>,
      fields: map<string, Info>)
    requires AllDescribed(start, fields) && forall i :: 0 <= i < |built| ==> AllDescribed(built[i], fields)
    ensures AllDescribed(Shown(start, built), fields)
    ensures built != [] ==> Shown(start, built) == built[|built| - 1]
  {
    hide AllDescribed, MergeContents;
    if built != [] {
      var front, last := built[..|built| - 1], built[|built| - 1];
      RunShowsLast(start, front, fields);
      MergeDescribed(Shown(start, front), last, fields);
    }
  }

  ghost function AliasBuilds(listings: seq<seq<Info>>): seq<map<string, seq<Info>>> {
    seq(|listings|, i requires 0 <= i < |listings| => AliasContents(listings[i]))
  }

  ghost function IdBuilds(listings: seq<seq<Info>>): seq<map<string, seq<Info>>> {
    seq(|listings|, i requires 0 <= i < |listings| => IdContents(listings[i]))
  }

  /** After any run of refreshes both maps show what the last listing alone would show. */
  lemma RunShowsLastListing(aliases: map<string, seq<Info>>, ids: map<string, seq<Info>>, listings: seq<seq<Info>>,
      fields: map<string, Info>)
    requires AllDescribed(aliases, fields) && AllDescribed(ids, fields) && listings != []
    requires forall i :: 0 <= i < |listings| ==> Described(listings[i], fields)
    ensures Shown(aliases, AliasBuilds(listings)) == AliasContents(listings[|listings| - 1])
    ensures Shown(ids, IdBuilds(listings)) == IdContents(listings[|listings| - 1])
  {
    hide Described, AllDescribed, AliasContents, IdContents, MergeContents, Shown;
    forall i | 0 <= i < |listings|
      ensures AllDescribed(AliasContents(listings[i]), fields) && AllDescribed(IdContents(listings[i]), fields)
    {
      ListingIsDescribed(listings[i], fields);
    }
    RunShowsLast(aliases, AliasBuilds(listings), fields);
    RunShowsLast(ids, IdBuilds(listings), fields);
  }

  /** One refresh shows the fresh contents exactly if no kept entry differs from the fresh one. */
  lemma MergeIsFreshExactlyWhen(old_: map<string, seq<Info>>, fresh_: map<string, seq<Info>>)
    ensures MergeContents(old_, fresh_) == fresh_ <==>
            forall k :: k in old_ && k in fresh_ && Fingerprint(old_[k]) == Fingerprint(fresh_[k]) ==>
              old_[k] == fresh_[k]
  {
    hide Fingerprint;
    var merged := MergeContents(old_, fresh_);
    assert merged.Keys == fresh_.Keys;
    if merged == fresh_ {
      forall k | k in old_ && k in fresh_ && Fingerprint(old_[k]) == Fingerprint(fresh_[k])
        ensures old_[k] == fresh_[k]
      {
        assert merged[k] == old_[k];
      }
    }
  }

  /** The contents at the start, or as built by the i-th refresh. */
  function Entry(start: map<string, seq<Info>>, built: seq<map<string, seq<Info>>>, i: nat): map<string, seq<Info>>
    requires i <= |built|
  {
    if i == 0 then start else built[i - 1]
  }

  /** Since when a key has had the fingerprint of the last refresh without a break. */
  function Since(start: map<string, seq<Info>>, built: seq<map<string, seq<Info>>>, k: string): (i: nat)
    requires k in Entry(start, built, |built|)
    ensures i <= |built| && k in Entry(start, built, i)
    ensures Fingerprint(Entry(start, built, i)[k]) == Fingerprint(Entry(start, built, |built|)[k])
  {
    hide Fingerprint;
    if built == [] then 0
    else
      var n := |built| - 1;
      var before := Entry(start, built, n);
      assert before == Entry(start, built[..n], n);
      if k in before && Fingerprint(before[k]) == Fingerprint(built[n][k]) then
        var i := Since(start, built[..n], k);
        assert Entry(start, built[..n], i) == Entry(start, built, i);
        i
      else |built|
  }

  lemma SinceBefore(start: map<string, seq<Info>>, built: seq<map<string, seq<Info>>>, k: string)
    requires built != [] && k in built[|built| - 1]
    ensures var n := |built| - 1;
            var front, before := built[..n], Entry(start, built, n);
            && before == Entry(start, front, n)
            && if k in before && Fingerprint(before[k]) == Fingerprint(built[n][k]) then
                 && Since(start, built, k) == Since(start, front, k)
                 && Entry(start, built, Since(start, built, k)) == Entry(start, front, Since(start, front, k))
               else Since(start, built, k) == |built|
  {
    hide Fingerprint;
  }

  /** Not a refresh later: from there on the fingerprint never changes, and just before it was another one. */
  lemma {:induction false} SinceIsUnbroken(start: map<string, seq<Info>>, built: seq<map<string, seq<Info>>>, k: string)
    requires k in Entry(start, built, |built|)
    ensures forall j :: Since(start, built, k) <= j <= |built| ==>
              k in Entry(start, built, j)
              && Fingerprint(Entry(start, built, j)[k]) == Fingerprint(Entry(start, built, |built|)[k])
    ensures var i := Since(start, built, k);
            i > 0 && k in Entry(start, built, i - 1) ==>
              Fingerprint(Entry(start, built, i - 1)[k]) != Fingerprint(Entry(start, built, |built|)[k])
    decreases |built|
  {
    if built != [] {
      var n := |built| - 1;
      var front, before := built[..n], Entry(start, built, n);
      SinceBefore(start, built, k);
      assert forall j: nat :: j <= n ==> Entry(start, front, j) == Entry(start, built, j);
      hide Fingerprint, Since;
      if k in before && Fingerprint(before[k]) == Fingerprint(built[n][k]) {
        SinceIsUnbroken(start, front, k);
      }
    }
  }

  lemma ShownLast(start: map<string, seq<Info>>, built: seq<map<string, seq<Info>>>, k: string)
    requires built != [] && k in built[|built| - 1]
    ensures var n := |built| - 1;
            var front := Shown(start, built[..n]);
            && k in Shown(start, built)
            && Shown(start, built)[k] ==
               if k in front && Fingerprint(front[k]) == Fingerprint(built[n][k]) then front[k] else built[n][k]
  {
    hide Fingerprint;
  }

  /** What is shown of a key is what was built when its fingerprint last changed. */
  lemma {:induction false} ShownSince(start: map<string, seq<Info>>, built: seq<map<string, seq<Info>>>, k: string)
    requires k in Entry(start, built, |built|)
    ensures k in Shown(start, built) && Shown(start, built)[k] == Entry(start, built, Since(start, built, k))[k]
  {
    if built != [] {
      var n := |built| - 1;
      SinceBefore(start, built, k);
      ShownLast(start, built, k);
      ShownKeys(start, built[..n]);
      hide Fingerprint, Since, Shown;
      if k in Entry(start, built[..n], n) { ShownSince(start, built[..n], k); }
    }
  }

  lemma ShownKeys(start: map<string, seq<Info>>, built: seq<map<string, seq<Info>>>)
    ensures Shown(start, built).Keys == Entry(start, built, |built|).Keys
  {
    hide Fingerprint;
  }

  /**
    After any run of refreshes the map shows the last one exactly if for every key
    nothing has changed since its fingerprint last did.
  */
  lemma RunIsFreshExactlyWhen(start: map<string, seq<Info>>, built: seq<map<string, seq<Info>>>)
    requires built != []
    ensures var last := built[|built| - 1];
            Shown(start, built) == last <==>
            forall k :: k in last ==> Entry(start, built, Since(start, built, k))[k] == last[k]
  {
    var last := built[|built| - 1];
    ShownKeys(start, built);
    forall k | k in last
      ensures Shown(start, built)[k] == Entry(start, built, Since(start, built, k))[k]
    {
      ShownSince(start, built, k);
    }
    hide Shown, Entry, Since;
  }

  lemma ShownTwice(a: map<string, seq<Info>>, b: map<string, seq<Info>>)
    ensures Shown(map[], [a, b]) == MergeContents(a, b)
  {
    hide Fingerprint;
    assert [a, b][..1] == [a] && [a][..0] == [];
    assert Shown(map[], [a]) == MergeContents(map[], a) == a;
  }

  lemma SingleContents(models: seq<Info>, info: Info)
    requires Aliases(models) == {info.alias} && Group(models, info.alias) == [info]
    ensures AliasContents(models) == map[info.alias := [info]]
  {
    hide Aliases, Group;
  }

  lemma SingleListing(info: Info)
    ensures Aliases([info]) == {info.alias} && Group([info], info.alias) == [info]
  {
    hide Aliases, Group;
    var models := [info];
    assert models[..1] == models && models[..0] == [];
    OneMoreId(models, 0);
    OneMoreInGroup(models, 0, info.alias);
    NothingListed(info.alias);
  }

  lemma OneListed(info: Info)
    ensures AliasContents([info]) == map[info.alias := [info]]
  {
    hide Aliases, Group, AliasContents;
    SingleListing(info);
    SingleContents([info], info);
  }

  lemma NothingListed(alias: string)
    ensures Aliases([]) == {} && Group([], alias) == []
  {
  }

  /** For a single model: a changed field is shown exactly if `cached` changes with it. */
  lemma ChangesAreSeenWithCached(before: Info, after: Info)
    requires before.id == after.id && before.alias == after.alias
    ensures Shown(map[], [AliasContents([before]), AliasContents([after])]) == AliasContents([after]) <==>
            before.cached != after.cached || before.data == after.data
  {
    ShownTwice(AliasContents([before]), AliasContents([after]));
    OneListed(before);
    OneListed(after);
    hide AliasContents, Shown, MergeContents;
    var k := after.alias;
    MergeIsFreshExactlyWhen(map[k := [before]], map[k := [after]]);
    assert Fingerprint([before])[0] == (before.id, before.cached);
    assert Fingerprint([after])[0] == (after.id, after.cached);
    assert [before][0] == before && [after][0] == after;
    assert Fingerprint([before]) == Fingerprint([after]) <==> before.cached == after.cached;
    var one, other := map[k := [before]], map[k := [after]];
    assert k in one && k in other && one[k] == [before] && other[k] == [after];
  }

  // ---------------------------------------------------------------------
  // Refreshing one catalog again and again
  // ---------------------------------------------------------------------

  /** What the core answers to get_model_list. */
  datatype Answer = CoreError | BadJson | Listing(infos: seq<Info>)

  /** The listings that are applied, in order. */
  function Listed(answers: seq<Answer>): seq<seq<Info>> {
    if answers == [] then []
    else
      var front, last := Listed(answers[..|answers| - 1]), answers[|answers| - 1];
      if last.Listing? then front + [last.infos] else front
  }

  function ListingAt(answers: seq<Answer>): set<nat> { set i: nat | i < |answers| && answers[i].Listing? }

  /** Every applied listing and no other, in the order of the answers. */
  ghost predicate AppliedInOrder(answers: seq<Answer>, listings: seq<seq<Info>>) {
    exists picked :: Picks(answers, ListingAt(answers), picked) && AnswersOf(picked, listings)
  }

  ghost predicate AnswersOf(picked: seq<Answer>, listings: seq<seq<Info>>) {
    |picked| == |listings| && forall k :: 0 <= k < |picked| ==> picked[k] == Listing(listings[k])
  }

  lemma {:induction false} ListedInOrder(answers: seq<Answer>)
    ensures AppliedInOrder(answers, Listed(answers))
  {
    if answers == [] {
      PicksNothing(answers);
      assert ListingAt(answers) == {} && AnswersOf([], []);
    } else {
      var front, last := answers[..|answers| - 1], answers[|answers| - 1];
      assert answers == front + [last];
      ListedInOrder(front);
      var picked :| Picks(front, ListingAt(front), picked) && AnswersOf(picked, Listed(front));
      PicksMore(front, ListingAt(front), picked, last);
      hide Picks;
      if last.Listing? {
        assert ListingAt(answers) == ListingAt(front) + {|front|};
        assert AnswersOf(picked + [last], Listed(answers));
      } else {
        assert ListingAt(answers) == ListingAt(front) && AnswersOf(picked, Listed(answers));
      }
    }
  }

  /** All builds have the key with the fingerprint it had at the start. */
  ghost predicate Steady(start: map<string, seq<Info>>, built: seq<map<string, seq<Info>>>, k: string) {
    k in start && forall i :: 0 <= i < |built| ==> k in built[i] && Fingerprint(built[i][k]) == Fingerprint(start[k])
  }

  ghost predicate SteadyKept(start: map<string, Model>, now: map<string, Model>, built: seq<map<string, seq<Info>>>) {
    forall k :: k in start && Steady(Contents(start), built, k) ==> k in now && now[k] == start[k]
  }

  lemma ShownGrows(start: map<string, seq<Info>>, built: seq<map<string, seq<Info>>>, fresh_: map<string, seq<Info>>)
    ensures Shown(start, built + [fresh_]) == MergeContents(Shown(start, built), fresh_)
  {
    assert (built + [fresh_])[..|built|] == built;
  }

  lemma SteadyGrows(start: map<string, Model>, old_: map<string, Model>, fresh_: map<string, Model>,
      built: seq<map<string, seq<Info>>>)
    requires SteadyKept(start, old_, built)
    ensures SteadyKept(start, Merge(old_, fresh_), built + [Contents(fresh_)])
  {
    var more := built + [Contents(fresh_)];
    hide Fingerprint;
    forall k | k in start && Steady(Contents(start), more, k)
      ensures k in Merge(old_, fresh_) && Merge(old_, fresh_)[k] == start[k]
    {
      assert forall i :: 0 <= i < |built| ==> more[i] == built[i];
      assert Steady(Contents(start), built, k);
      assert more[|built|] == Contents(fresh_);
    }
  }

  lemma BuildsGrow(listings: seq<seq<Info>>, infos: seq<Info>)
    ensures AliasBuilds(listings + [infos]) == AliasBuilds(listings) + [AliasContents(infos)]
    ensures IdBuilds(listings + [infos]) == IdBuilds(listings) + [IdContents(infos)]
  {
  }

  /** One answer of the core: an error leaves both maps alone. */
  method RunUpdate(c: Catalog, answer: Answer, ghost aliases: map<string, Model>, ghost ids: map<string, Model>,
      ghost listings: seq<seq<Info>>) returns (ghost more: seq<seq<Info>>)
    requires Contents(c.byAlias) == Shown(Contents(aliases), AliasBuilds(listings))
    requires Contents(c.byId) == Shown(Contents(ids), IdBuilds(listings))
    requires SteadyKept(aliases, c.byAlias, AliasBuilds(listings)) && SteadyKept(ids, c.byId, IdBuilds(listings))
    modifies c
    ensures more == if answer.Listing? then listings + [answer.infos] else listings
    ensures Contents(c.byAlias) == Shown(Contents(aliases), AliasBuilds(more))
    ensures Contents(c.byId) == Shown(Contents(ids), IdBuilds(more))
    ensures SteadyKept(aliases, c.byAlias, AliasBuilds(more)) && SteadyKept(ids, c.byId, IdBuilds(more))
  {
    hide Contents, Shown, Merge, MergeContents, SteadyKept, AliasBuilds, IdBuilds, AliasContents, IdContents, Group,
      FirstCached;
    more := listings;
    match answer
    case CoreError =>
    case BadJson =>
    case Listing(infos) =>
      ghost var oldAliases, oldIds := c.byAlias, c.byId;
      ghost var freshAliases, freshIds := c.ApplyModelList(infos);
      more := listings + [infos];
      BuildsGrow(listings, infos);
      ShownGrows(Contents(aliases), AliasBuilds(listings), AliasContents(infos));
      ShownGrows(Contents(ids), IdBuilds(listings), IdContents(infos));
      SteadyGrows(aliases, oldAliases, freshAliases, AliasBuilds(listings));
      SteadyGrows(ids, oldIds, freshIds, IdBuilds(listings));
  }

  /** A run shows its last listing's contents exactly if nothing has changed behind a fingerprint. */
  ghost predicate FreshExactlyWhen(start: map<string, seq<Info>>, built: seq<map<string, seq<Info>>>,
      shown: map<string, seq<Info>>) {
    built != [] ==>
      var last := built[|built| - 1];
      shown == last <==> forall k :: k in last ==> Entry(start, built, Since(start, built, k))[k] == last[k]
  }

  /** Everything but `cached` is fixed per id, at the start and in all listings. */
  ghost predicate FixedFields(aliases: map<string, seq<Info>>, ids: map<string, seq<Info>>,
      listings: seq<seq<Info>>, fields: map<string, Info>) {
    && AllDescribed(aliases, fields) && AllDescribed(ids, fields)
    && forall i :: 0 <= i < |listings| ==> Described(listings[i], fields)
  }

  /**
    Any run of refreshes of one catalog, with any answers.  What both maps show is the
    last listing's contents exactly if nothing has changed behind a fingerprint, and so
    if the fields are fixed; a key whose fingerprint never changes keeps its object.
  */
  method RunUpdates(c: Catalog, answers: seq<Answer>, ghost fields: map<string, Info>)
    modifies c
    ensures SteadyKept(old(c.byAlias), c.byAlias, AliasBuilds(Listed(answers)))
    ensures SteadyKept(old(c.byId), c.byId, IdBuilds(Listed(answers)))
    ensures FreshExactlyWhen(old(Contents(c.byAlias)), AliasBuilds(Listed(answers)), Contents(c.byAlias))
    ensures FreshExactlyWhen(old(Contents(c.byId)), IdBuilds(Listed(answers)), Contents(c.byId))
    ensures Listed(answers) == [] ==> Contents(c.byAlias) == old(Contents(c.byAlias))
                                      && Contents(c.byId) == old(Contents(c.byId))
    ensures var listings := Listed(answers);
            listings != [] && FixedFields(old(Contents(c.byAlias)), old(Contents(c.byId)), listings, fields) ==>
              && Contents(c.byAlias) == AliasContents(listings[|listings| - 1])
              && Contents(c.byId) == IdContents(listings[|listings| - 1])
  {
    ghost var aliases, ids, listings := c.byAlias, c.byId, [];
    assert answers[..0] == [] && answers[..|answers|] == answers;
    hide Contents, MergeContents, Steady, AliasContents, IdContents, FreshExactlyWhen, FixedFields;
    for i := 0 to |answers|
      invariant listings == Listed(answers[..i])
      invariant Contents(c.byAlias) == Shown(Contents(aliases), AliasBuilds(listings))
      invariant Contents(c.byId) == Shown(Contents(ids), IdBuilds(listings))
      invariant SteadyKept(aliases, c.byAlias, AliasBuilds(listings)) && SteadyKept(ids, c.byId, IdBuilds(listings))
    {
      hide Shown, AliasBuilds, IdBuilds, SteadyKept;
      assert answers[..i + 1][..i] == answers[..i];
      listings := RunUpdate(c, answers[i], aliases, ids, listings);
    }
    RunIsFresh(Contents(aliases), AliasBuilds(listings));
    RunIsFresh(Contents(ids), IdBuilds(listings));
    if listings != [] && FixedFields(Contents(aliases), Contents(ids), listings, fields) {
      FixedShowsLast(Contents(aliases), Contents(ids), listings, fields);
    }
  }

  lemma RunIsFresh(start: map<string, seq<Info>>, built: seq<map<string, seq<Info>>>)
    ensures FreshExactlyWhen(start, built, Shown(start, built))
  {
    hide Shown, Since, Entry, Fingerprint;
    if built != [] { RunIsFreshExactlyWhen(start, built); }
  }

  lemma FixedShowsLast(aliases: map<string, seq<Info>>, ids: map<string, seq<Info>>, listings: seq<seq<Info>>,
      fields: map<string, Info>)
    requires listings != [] && FixedFields(aliases, ids, listings, fields)
    ensures Shown(aliases, AliasBuilds(listings)) == AliasContents(listings[|listings| - 1])
    ensures Shown(ids, IdBuilds(listings)) == IdContents(listings[|listings| - 1])
  {
    hide Shown, AliasContents, IdContents, Described, AllDescribed;
    RunShowsLastListing(aliases, ids, listings, fields);
  }
}
