/**
  What the operations of a container do to its variants, its retired leaves and
  its selection (sdk_v2/cpp/src/model.cc:214-398, 914-931), on values.  Leaves are
  object identities; what else the container reads of them is handed in as an Env.
*/
module ContainerSpec {
  import opened ModelInfoJson
  import opened VariantOrder
  import opened ModelLeaf

  type Env = map<Leaf, LeafView>

  function ViewOf(env: Env, leaf: Leaf): LeafView {
    if leaf in env then env[leaf] else LeafView("", false, false, false, false)
  }

  function InfosOf(leaves: seq<Leaf>): (s: seq<ModelInfo>)
    ensures |s| == |leaves| && forall i :: 0 <= i < |s| ==> s[i] == leaves[i].info
  {
    seq(|leaves|, i requires 0 <= i < |leaves| => leaves[i].info)
  }

  /** What identifies a variant across refreshes. */
  function RowOf(leaf: Leaf, env: Env): Row { Row(leaf.info, ViewOf(env, leaf).path) }

  function RowsOf(leaves: seq<Leaf>, env: Env): (rows: seq<Row>)
    ensures |rows| == |leaves| && forall i :: 0 <= i < |rows| ==> rows[i] == RowOf(leaves[i], env)
  {
    seq(|leaves|, i requires 0 <= i < |leaves| => RowOf(leaves[i], env))
  }

  // ---------------------------------------------------------------------
  // Matching current variants against a fresh listing
  // ---------------------------------------------------------------------

  /** std::find_if over the incoming variants. */
  function FindRow(leaves: seq<Leaf>, row: Row, env: Env, from: nat): (i: nat)
    requires from <= |leaves|
    ensures from <= i <= |leaves|
    ensures forall k :: from <= k < i ==> RowOf(leaves[k], env) != row
    ensures i < |leaves| ==> RowOf(leaves[i], env) == row
    decreases |leaves| - from
  {
    if from == |leaves| || RowOf(leaves[from], env) == row then from else FindRow(leaves, row, env, from + 1)
  }

  function ToSet(leaves: seq<Leaf>): set<Leaf> { set l | l in leaves }

  function Without<T>(s: seq<T>, i: nat): seq<T>
    requires i < |s|
  {
    s[..i] + s[i + 1..]
  }

  datatype Matching = Matching(kept: seq<Leaf>, dropped: seq<Leaf>, added: seq<Leaf>)

  /** Each current variant takes the first fresh one with its row, if one is left. */
  function Match(current: seq<Leaf>, incoming: seq<Leaf>, env: Env): Matching
    decreases |current|
  {
    if current == [] then Matching([], [], incoming)
    else
      var i := FindRow(incoming, RowOf(current[0], env), env, 0);
      if i < |incoming| then
        var m := Match(current[1..], Without(incoming, i), env);
        m.(kept := [current[0]] + m.kept)
      else
        var m := Match(current[1..], incoming, env);
        m.(dropped := [current[0]] + m.dropped)
  }

  lemma WithoutBag<T>(s: seq<T>, i: nat)
    requires i < |s|
    ensures multiset(s) == multiset(Without(s, i)) + multiset{s[i]}
  {
    assert s == s[..i] + [s[i]] + s[i + 1..];
  }

  lemma FirstAndRest<T>(s: seq<T>)
    requires s != []
    ensures multiset(s) == multiset{s[0]} + multiset(s[1..])
  {
    assert s == [s[0]] + s[1..];
  }

  lemma PrependBag<T>(x: T, s: seq<T>)
    ensures multiset([x] + s) == multiset{x} + multiset(s)
  {
  }

  lemma RowsWithout(leaves: seq<Leaf>, i: nat, env: Env)
    requires i < |leaves|
    ensures multiset(RowsOf(leaves, env)) == multiset(RowsOf(Without(leaves, i), env)) + multiset{RowOf(leaves[i], env)}
  {
    hide RowOf;
    assert RowsOf(Without(leaves, i), env) == Without(RowsOf(leaves, env), i);
    WithoutBag(RowsOf(leaves, env), i);
  }

  lemma RowsPrepend(leaf: Leaf, leaves: seq<Leaf>, env: Env)
    ensures multiset(RowsOf([leaf] + leaves, env)) == multiset{RowOf(leaf, env)} + multiset(RowsOf(leaves, env))
  {
    hide RowOf;
    assert RowsOf([leaf] + leaves, env) == [RowOf(leaf, env)] + RowsOf(leaves, env);
  }

  /** Kept and added variants have exactly the rows of the fresh listing. */
  lemma {:induction false} MatchedRows(current: seq<Leaf>, incoming: seq<Leaf>, env: Env)
    ensures var m := Match(current, incoming, env);
            multiset(RowsOf(m.kept, env)) + multiset(RowsOf(m.added, env)) == multiset(RowsOf(incoming, env))
    decreases |current|
  {
    hide RowOf, Without;
    if current != [] {
      var i := FindRow(incoming, RowOf(current[0], env), env, 0);
      if i < |incoming| {
        MatchedRows(current[1..], Without(incoming, i), env);
        RowsWithout(incoming, i, env);
        RowsPrepend(current[0], Match(current[1..], Without(incoming, i), env).kept, env);
      } else {
        MatchedRows(current[1..], incoming, env);
      }
    } else {
      assert RowsOf([], env) == [];
    }
  }

  /** Every current variant is kept or dropped; what is added comes from the fresh listing. */
  lemma {:induction false} MatchedLeaves(current: seq<Leaf>, incoming: seq<Leaf>, env: Env)
    ensures var m := Match(current, incoming, env);
            && multiset(m.kept) + multiset(m.dropped) == multiset(current)
            && multiset(m.added) <= multiset(incoming)
    decreases |current|
  {
    hide RowOf, Without;
    if current != [] {
      FirstAndRest(current);
      var i := FindRow(incoming, RowOf(current[0], env), env, 0);
      if i < |incoming| {
        MatchedLeaves(current[1..], Without(incoming, i), env);
        WithoutBag(incoming, i);
        PrependBag(current[0], Match(current[1..], Without(incoming, i), env).kept);
      } else {
        MatchedLeaves(current[1..], incoming, env);
        PrependBag(current[0], Match(current[1..], incoming, env).dropped);
      }
    }
  }

  /** Each object occurs once. */
  ghost predicate Once(leaves: multiset<Leaf>) { forall l :: l in leaves ==> leaves[l] == 1 }

  function Count(leaves: seq<Leaf>, row: Row, env: Env): nat { multiset(RowsOf(leaves, env))[row] }

  lemma CountFirst(leaves: seq<Leaf>, row: Row, env: Env)
    requires leaves != []
    ensures Count(leaves, row, env) == (if RowOf(leaves[0], env) == row then 1 else 0) + Count(leaves[1..], row, env)
  {
    RowsPrepend(leaves[0], leaves[1..], env);
    assert leaves == [leaves[0]] + leaves[1..];
  }

  lemma CountWithout(leaves: seq<Leaf>, i: nat, row: Row, env: Env)
    requires i < |leaves|
    ensures Count(Without(leaves, i), row, env)
         == Count(leaves, row, env) - (if RowOf(leaves[i], env) == row then 1 else 0)
  {
    RowsWithout(leaves, i, env);
  }

  lemma NotListed(leaves: seq<Leaf>, row: Row, env: Env)
    ensures FindRow(leaves, row, env, 0) < |leaves| <==> Count(leaves, row, env) > 0
  {
    hide RowOf;
    var i := FindRow(leaves, row, env, 0);
    if i < |leaves| {
      assert RowsOf(leaves, env)[i] == row;
    } else {
      assert row !in RowsOf(leaves, env);
    }
  }

  lemma OnceRest(s: seq<Leaf>)
    requires s != [] && Once(multiset(s))
    ensures Once(multiset(s[1..])) && s[0] !in s[1..]
  {
    FirstAndRest(s);
    assert s[0] in multiset(s);
    forall l | l in multiset(s[1..])
      ensures multiset(s[1..])[l] == 1
    {
      assert multiset(s)[l] == 1;
    }
  }

  lemma FirstIsKept(current: seq<Leaf>, incoming: seq<Leaf>, env: Env)
    requires current != [] && Once(multiset(current))
    ensures current[0] in Match(current, incoming, env).kept <==> Count(incoming, RowOf(current[0], env), env) > 0
  {
    hide RowOf, Without, Count;
    var row := RowOf(current[0], env);
    NotListed(incoming, row, env);
    OnceRest(current);
    var i := FindRow(incoming, row, env, 0);
    if i < |incoming| {
    } else {
      MatchedLeaves(current[1..], incoming, env);
      var m := Match(current[1..], incoming, env);
      forall l | l in m.kept
        ensures l in current[1..]
      {
        assert l in multiset(m.kept);
        assert l in multiset(current[1..]);
      }
    }
  }

  lemma LaterIsKept(current: seq<Leaf>, incoming: seq<Leaf>, env: Env, j: nat)
    requires 0 < j < |current| && Once(multiset(current))
    ensures var i := FindRow(incoming, RowOf(current[0], env), env, 0);
            current[j] in Match(current, incoming, env).kept <==>
            current[j] in Match(current[1..], if i < |incoming| then Without(incoming, i) else incoming, env).kept
  {
    hide RowOf, Without;
    OnceRest(current);
    assert current[j] == current[1..][j - 1];
  }

  /** A variant stays iff fewer variants before it share its row than the fresh listing holds. */
  lemma {:induction false} KeptWhenListed(current: seq<Leaf>, incoming: seq<Leaf>, env: Env, j: nat)
    requires j < |current| && Once(multiset(current))
    ensures current[j] in Match(current, incoming, env).kept <==>
            Count(current[..j], RowOf(current[j], env), env) < Count(incoming, RowOf(current[j], env), env)
    decreases |current|
  {
    hide RowOf, Without, Count, Match, Once;
    var row := RowOf(current[j], env);
    if j == 0 {
      FirstIsKept(current, incoming, env);
      NothingCounted(row, env);
      assert current[..0] == [];
    } else {
      OnceRest(current);
      LaterIsKept(current, incoming, env, j);
      var first := RowOf(current[0], env);
      var i := FindRow(incoming, first, env, 0);
      var rest := if i < |incoming| then Without(incoming, i) else incoming;
      KeptWhenListed(current[1..], rest, env, j - 1);
      assert current[1..][..j - 1] == current[..j][1..] && current[1..][j - 1] == current[j];
      CountFirst(current[..j], row, env);
      NotListed(incoming, first, env);
      if i < |incoming| { CountWithout(incoming, i, row, env); }
    }
  }

  lemma NothingCounted(row: Row, env: Env)
    ensures Count([], row, env) == 0
  {
    assert RowsOf([], env) == [];
  }
}
