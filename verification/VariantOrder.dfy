/**
  The order in which a container lists its variants (sdk_v2/cpp/src/model.cc:38-108,
  214-230): the comparator, the sorted list, and insertion into it.
*/
module VariantOrder {
  import opened StringOrder
  import opened ModelInfoJson

  predicate OccursAt(text: string, pattern: string, i: nat) {
    i + |pattern| <= |text| && Lower(text[i..i + |pattern|]) == Lower(pattern)
  }

  /** std::search with std::tolower on both sides. */
  predicate ContainsCaseInsensitive(text: string, pattern: string) {
    exists i | 0 <= i <= |text| :: OccursAt(text, pattern, i)
  }

  function DevicePriority(modelId: string): nat {
    if ContainsCaseInsensitive(modelId, "-npu:") then 0
    else if ContainsCaseInsensitive(modelId, "-generic-gpu:") then 3
    else if ContainsCaseInsensitive(modelId, "-cuda-gpu:") then 2
    else if ContainsCaseInsensitive(modelId, "-gpu:") then 1
    else if ContainsCaseInsensitive(modelId, "-generic-cpu:") then 5
    else if ContainsCaseInsensitive(modelId, "-cpu:") then 4
    else 6
  }

  /** The letter case of an id does not matter. */
  lemma CaseIsIrrelevant(modelId: string)
    ensures DevicePriority(Lower(modelId)) == DevicePriority(modelId)
  {
    forall pattern: string
      ensures ContainsCaseInsensitive(Lower(modelId), pattern) == ContainsCaseInsensitive(modelId, pattern)
    {
      LoweredContains(modelId, pattern);
    }
    hide ContainsCaseInsensitive;
  }

  lemma LoweredContains(text: string, pattern: string)
    ensures ContainsCaseInsensitive(Lower(text), pattern) == ContainsCaseInsensitive(text, pattern)
  {
    hide Lower;
    forall i: nat | i + |pattern| <= |text|
      ensures OccursAt(Lower(text), pattern, i) == OccursAt(text, pattern, i)
    {
      assert Lower(Lower(text)[i..i + |pattern|]) == Lower(text[i..i + |pattern|]);
    }
    if i :| 0 <= i <= |text| && OccursAt(text, pattern, i) { assert OccursAt(Lower(text), pattern, i); }
    if i :| 0 <= i <= |text| && OccursAt(Lower(text), pattern, i) { assert OccursAt(text, pattern, i); }
  }

  lemma SuffixOccurs(text: string, pattern: string, i: nat, k: nat)
    requires OccursAt(text, pattern, i) && k <= |pattern|
    ensures OccursAt(text, pattern[k..], i + k)
  {
    hide Lower;
    var window, part := text[i..i + |pattern|], text[i + k..i + |pattern|];
    assert part == window[k..];
    forall j | 0 <= j < |part|
      ensures Lower(part)[j] == Lower(pattern[k..])[j]
    {
      assert Lower(window)[k + j] == Lower(pattern)[k + j];
    }
    assert Lower(part) == Lower(pattern[k..]);
  }

  lemma VendorBehindGeneric(text: string, i: nat)
    requires OccursAt(text, "-generic-gpu:", i)
    ensures OccursAt(text, "-gpu:", i + 8) && i + 8 <= |text|
  {
    SuffixOccurs(text, "-generic-gpu:", i, 8);
    assert "-generic-gpu:"[8..] == "-gpu:";
  }

  /** A generic device also matches the vendor test behind it; the order of the tests keeps them apart. */
  lemma GenericIsNotVendor(modelId: string)
    requires ContainsCaseInsensitive(modelId, "-generic-gpu:")
    ensures ContainsCaseInsensitive(modelId, "-gpu:") && DevicePriority(modelId) in {0, 3}
  {
    hide OccursAt;
    assert ContainsCaseInsensitive(modelId, "-gpu:") by {
      hide DevicePriority;
      var i :| 0 <= i <= |modelId| && OccursAt(modelId, "-generic-gpu:", i);
      VendorBehindGeneric(modelId, i);
    }
    hide ContainsCaseInsensitive;
  }

  // ---------------------------------------------------------------------
  // Ids of the documented form
  // ---------------------------------------------------------------------

  predicate NoColon(s: string) { ':' !in s }

  /** Up to letter case. */
  predicate EndsIn(s: string, suffix: string) {
    |suffix| <= |s| && Lower(s[|s| - |suffix|..]) == Lower(suffix)
  }

  lemma LowerKeepsColon(s: string, i: nat)
    requires i < |s|
    ensures Lower(s)[i] == ':' <==> s[i] == ':'
  {
  }

  lemma LowerOfTwo(a: string, b: string)
    ensures Lower(a + b) == Lower(a) + Lower(b)
  {
    var l, r := Lower(a + b), Lower(a) + Lower(b);
    forall i | 0 <= i < |l|
      ensures l[i] == r[i]
    {
      if i < |a| { assert (a + b)[i] == a[i]; } else { assert (a + b)[i] == b[i - |a|]; }
    }
    hide Lower;
    assert l == r;
  }

  /** A device pattern is found where the only colon is, or nowhere. */
  lemma PatternAtColon(stem: string, version: string, device: string, i: nat)
    requires NoColon(stem) && NoColon(version) && NoColon(device)
    requires OccursAt(stem + ":" + version, device + ":", i)
    ensures i + |device| == |stem| && EndsIn(stem, device)
  {
    var text, pattern := stem + ":" + version, device + ":";
    var window := text[i..i + |pattern|];
    LowerKeepsColon(window, |device|);
    LowerKeepsColon(pattern, |device|);
    assert pattern[|device|] == ':' && text[i + |device|] == ':';
    assert i + |device| == |stem|;
    assert window == stem[i..] + ":";
    hide Lower;
    LowerOfTwo(stem[i..], ":");
    LowerOfTwo(device, ":");
    assert Lower(stem[i..]) == Lower(window)[..|device|] == Lower(pattern)[..|device|] == Lower(device);
  }

  lemma PatternFound(stem: string, version: string, device: string)
    requires NoColon(stem) && NoColon(version) && NoColon(device)
    ensures ContainsCaseInsensitive(stem + ":" + version, device + ":") <==> EndsIn(stem, device)
  {
    var text, pattern := stem + ":" + version, device + ":";
    if EndsIn(stem, device) {
      var i := |stem| - |device|;
      assert text[i..i + |pattern|] == stem[i..] + ":";
      hide Lower;
      LowerOfTwo(stem[i..], ":");
      LowerOfTwo(device, ":");
      assert OccursAt(text, pattern, i);
    }
    if i :| 0 <= i <= |text| && OccursAt(text, pattern, i) {
      PatternAtColon(stem, version, device, i);
    }
  }

  lemma EndsInEnd(s: string, end: string, suffix: string)
    ensures |suffix| <= |end| ==> EndsIn(s + end, suffix) == EndsIn(end, suffix)
  {
    hide Lower;
    if |suffix| <= |end| {
      assert (s + end)[|s + end| - |suffix|..] == end[|end| - |suffix|..];
    }
  }

  lemma EndsInBoth(s: string, front: string, end: string)
    ensures EndsIn(s + end, front + end) == EndsIn(s, front)
  {
    hide Lower;
    if |front| <= |s| {
      var part := s[|s| - |front|..];
      assert (s + end)[|s + end| - |front + end|..] == part + end;
      LowerOfTwo(part, end);
      LowerOfTwo(front, end);
      assert (Lower(part) + Lower(end))[..|front|] == Lower(part);
      assert (Lower(front) + Lower(end))[..|front|] == Lower(front);
    }
  }

  /** Different letters, whatever their case, make different ends. */
  lemma EndsDiffer(end: string, suffix: string, k: nat)
    requires k < |suffix| <= |end| && LowerChar(end[|end| - |suffix| + k]) != LowerChar(suffix[k])
    ensures !EndsIn(end, suffix)
  {
    assert Lower(end[|end| - |suffix|..])[k] != Lower(suffix)[k];
  }

  /** The priority of an id goes by what its stem in front of the version ends in. */
  lemma PriorityOfStem(stem: string, version: string)
    requires NoColon(stem) && NoColon(version)
    ensures DevicePriority(stem + ":" + version) ==
            if EndsIn(stem, "-npu") then 0
            else if EndsIn(stem, "-generic-gpu") then 3
            else if EndsIn(stem, "-cuda-gpu") then 2
            else if EndsIn(stem, "-gpu") then 1
            else if EndsIn(stem, "-generic-cpu") then 5
            else if EndsIn(stem, "-cpu") then 4
            else 6
  {
    hide ContainsCaseInsensitive, EndsIn;
    PatternFound(stem, version, "-npu");
    PatternFound(stem, version, "-generic-gpu");
    PatternFound(stem, version, "-cuda-gpu");
    PatternFound(stem, version, "-gpu");
    PatternFound(stem, version, "-generic-cpu");
    PatternFound(stem, version, "-cpu");
    assert "-npu" + ":" == "-npu:" && "-generic-gpu" + ":" == "-generic-gpu:" && "-cuda-gpu" + ":" == "-cuda-gpu:";
    assert "-gpu" + ":" == "-gpu:" && "-generic-cpu" + ":" == "-generic-cpu:" && "-cpu" + ":" == "-cpu:";
  }

  /** Ends of four letters exclude each other. */
  lemma ShortEnds(name: string, long: string, end: string)
    requires (long == "-npu" || long == "-gpu" || long == "-cpu") && |end| >= 4 && end[|end| - 4..] == long
    ensures EndsIn(name + end, "-npu") == (long == "-npu")
    ensures EndsIn(name + end, "-gpu") == (long == "-gpu")
    ensures EndsIn(name + end, "-cpu") == (long == "-cpu")
  {
    EndsInEnd(name, end, "-npu");
    EndsInEnd(name, end, "-gpu");
    EndsInEnd(name, end, "-cpu");
    assert end[|end| - 3] == long[1];
    if long != "-npu" { EndsDiffer(end, "-npu", 1); }
    if long != "-gpu" { EndsDiffer(end, "-gpu", 1); }
    if long != "-cpu" { EndsDiffer(end, "-cpu", 1); }
  }

  lemma LastLetter(s: string, suffix: string)
    requires s != [] && suffix != [] && LowerChar(s[|s| - 1]) != LowerChar(suffix[|suffix| - 1])
    ensures !EndsIn(s, suffix)
  {
    if |suffix| <= |s| { EndsDiffer(s, suffix, |suffix| - 1); }
  }

  lemma EverythingEndsInNothing(s: string)
    ensures EndsIn(s, "")
  {
    assert s[|s|..] == "";
  }

  /** Long ends go by what stands in front of the short ones. */
  lemma LongEnds(name: string, kind: string, short: string)
    requires short == "-gpu" || short == "-cpu"
    ensures EndsIn(name + kind + short, "-generic" + short) == EndsIn(name + kind, "-generic")
    ensures EndsIn(name + kind + short, "-cuda" + short) == EndsIn(name + kind, "-cuda")
  {
    EndsInBoth(name + kind, "-generic", short);
    EndsInBoth(name + kind, "-cuda", short);
  }

  lemma EndsInItself(name: string, kind: string)
    ensures EndsIn(name + kind, kind)
  {
    EndsInBoth(name, "", kind);
    EverythingEndsInNothing(name);
    assert "" + kind == kind;
  }

  lemma NoColonJoined(name: string, kind: string)
    requires NoColon(name) && NoColon(kind)
    ensures NoColon(name + kind)
  {
  }

  /** `<name>-<device>:<version>` */
  function Id(stem: string, version: string): string { stem + ":" + version }

  lemma GpuPriority(name: string, kind: string, version: string)
    requires NoColon(name) && NoColon(kind) && NoColon(version)
    ensures DevicePriority(Id(name + kind + "-gpu", version)) ==
            if EndsIn(name + kind, "-generic") then 3 else if EndsIn(name + kind, "-cuda") then 2 else 1
  {
    NoColonJoined(name, kind);
    NoColonJoined(name + kind, "-gpu");
    hide EndsIn, DevicePriority, NoColon;
    var stem := name + kind + "-gpu";
    LongEnds(name, kind, "-gpu");
    assert "-generic" + "-gpu" == "-generic-gpu" && "-cuda" + "-gpu" == "-cuda-gpu";
    ShortEnds(name + kind, "-gpu", "-gpu");
    PriorityOfStem(stem, version);
  }

  lemma CpuPriority(name: string, kind: string, version: string)
    requires NoColon(name) && NoColon(kind) && NoColon(version)
    ensures DevicePriority(Id(name + kind + "-cpu", version)) == if EndsIn(name + kind, "-generic") then 5 else 4
  {
    NoColonJoined(name, kind);
    NoColonJoined(name + kind, "-cpu");
    hide EndsIn, DevicePriority, NoColon;
    var stem := name + kind + "-cpu";
    LongEnds(name, kind, "-cpu");
    assert "-generic" + "-cpu" == "-generic-cpu";
    ShortEnds(name + kind, "-cpu", "-cpu");
    PriorityOfStem(stem, version);
    CpuIsNoGpu(stem);
  }

  lemma LastButTwo(s: string, suffix: string)
    requires |suffix| >= 3
    ensures EndsIn(s, suffix) ==> |s| >= 3 && LowerChar(s[|s| - 3]) == LowerChar(suffix[|suffix| - 3])
  {
    if |s| >= |suffix| {
      var k := |suffix| - 3;
      assert Lower(s[|s| - |suffix|..])[k] == LowerChar(s[|s| - 3]) && Lower(suffix)[k] == LowerChar(suffix[k]);
    }
  }

  /** A long GPU end has the short one's letter where a CPU has its own. */
  lemma CpuIsNoGpu(stem: string)
    requires EndsIn(stem, "-cpu")
    ensures !EndsIn(stem, "-generic-gpu") && !EndsIn(stem, "-cuda-gpu")
  {
    hide EndsIn;
    LastButTwo(stem, "-cpu");
    LastButTwo(stem, "-generic-gpu");
    LastButTwo(stem, "-cuda-gpu");
  }

  lemma NpuPriority(name: string, version: string)
    requires NoColon(name) && NoColon(version)
    ensures DevicePriority(Id(name + "-npu", version)) == 0
  {
    NoColonJoined(name, "-npu");
    hide EndsIn, DevicePriority, NoColon;
    ShortEnds(name, "-npu", "-npu");
    PriorityOfStem(name + "-npu", version);
  }

  lemma CudaIsNotGeneric(name: string)
    ensures EndsIn(name + "-cuda", "-cuda") && !EndsIn(name + "-cuda", "-generic")
  {
    EndsInItself(name, "-cuda");
    LastLetter(name + "-cuda", "-generic");
  }

  lemma KindsHaveNoColon()
    ensures NoColon("") && NoColon("-cuda") && NoColon("-generic")
  {
  }

  /** NPU, vendor GPU, CUDA GPU, generic GPU, vendor CPU, generic CPU, in this order. */
  lemma DevicePriorities(name: string, version: string)
    requires NoColon(name) && NoColon(version)
    ensures DevicePriority(Id(name + "-npu", version)) == 0
    ensures !EndsIn(name, "-generic") && !EndsIn(name, "-cuda") ==> DevicePriority(Id(name + "-gpu", version)) == 1
    ensures DevicePriority(Id(name + "-cuda" + "-gpu", version)) == 2
    ensures DevicePriority(Id(name + "-generic" + "-gpu", version)) == 3
    ensures !EndsIn(name, "-generic") ==> DevicePriority(Id(name + "-cpu", version)) == 4
    ensures DevicePriority(Id(name + "-generic" + "-cpu", version)) == 5
  {
    KindsHaveNoColon();
    hide EndsIn, DevicePriority, NoColon, Id;
    NpuPriority(name, version);
    assert name + "" == name;
    CudaIsNotGeneric(name);
    EndsInItself(name, "-generic");
    GpuPriority(name, "", version);
    GpuPriority(name, "-cuda", version);
    GpuPriority(name, "-generic", version);
    CpuPriority(name, "", version);
    CpuPriority(name, "-generic", version);
  }

  function CreatedAt(info: ModelInfo): Int64 {
    if CREATED_AT_UNIX in info.ints then info.ints[CREATED_AT_UNIX] else 0
  }

  /** CompareModelsForSort: device, then newest version, then newest entry, then id. */
  predicate Better(a: ModelInfo, b: ModelInfo) {
    var p, q := DevicePriority(a.modelId), DevicePriority(b.modelId);
    if p != q then p < q
    else if a.version != b.version then a.version > b.version
    else if CreatedAt(a) != CreatedAt(b) then CreatedAt(a) > CreatedAt(b)
    else Less(a.modelId, b.modelId)
  }

  /** The criteria in their order; the smaller the better. */
  function Ranks(info: ModelInfo): seq<int> {
    var version: int, created: int := info.version, CreatedAt(info);
    [DevicePriority(info.modelId), -version, -created]
  }

  /** At the first criterion that tells two entries apart, the better one is ahead; if none does, its id is smaller. */
  lemma BetterIsLexicographic(a: ModelInfo, b: ModelInfo)
    ensures Better(a, b) <==>
            || (exists k :: 0 <= k < 3 && Ranks(a)[..k] == Ranks(b)[..k] && Ranks(a)[k] < Ranks(b)[k])
            || (Ranks(a) == Ranks(b) && Less(a.modelId, b.modelId))
  {
    hide DevicePriority, CreatedAt, Less;
    var p, q := Ranks(a), Ranks(b);
    assert p[..0] == q[..0] && (p[0] == q[0] ==> p[..1] == q[..1]);
    assert p[0] == q[0] && p[1] == q[1] ==> p[..2] == q[..2];
    if k :| 0 <= k < 3 && p[..k] == q[..k] && p[k] < q[k] {
      assert k > 0 ==> p[0] == p[..k][0] == q[..k][0] == q[0];
      assert k > 1 ==> p[1] == p[..k][1] == q[..k][1] == q[1];
    }
  }

  /** On one device the newer version comes first, and of one version the newer entry. */
  lemma NewerIsBetter(a: ModelInfo, b: ModelInfo)
    requires DevicePriority(a.modelId) == DevicePriority(b.modelId)
    ensures a.version > b.version ==> Better(a, b)
    ensures a.version == b.version && CreatedAt(a) > CreatedAt(b) ==> Better(a, b)
  {
    hide DevicePriority, CreatedAt, Less;
  }

  lemma BetterIsIrreflexive(a: ModelInfo)
    ensures !Better(a, a)
  {
    LessIrreflexive(a.modelId);
  }

  lemma BetterIsTransitive(a: ModelInfo, b: ModelInfo, c: ModelInfo)
    requires Better(a, b) && Better(b, c)
    ensures Better(a, c)
  {
    hide DevicePriority, CreatedAt, Less;
    if Less(a.modelId, b.modelId) && Less(b.modelId, c.modelId) { LessTransitive(a.modelId, b.modelId, c.modelId); }
  }

  lemma BetterIsTotal(a: ModelInfo, b: ModelInfo)
    requires a.modelId != b.modelId
    ensures Better(a, b) != Better(b, a)
  {
    hide DevicePriority, CreatedAt, Less;
    LessTotal(a.modelId, b.modelId);
  }

  /** Entries with one id that differ nowhere the comparator looks rank alike. */
  lemma EqualRank(a: ModelInfo, b: ModelInfo)
    requires !Better(a, b) && !Better(b, a)
    ensures a.modelId == b.modelId && a.version == b.version && CreatedAt(a) == CreatedAt(b)
  {
    hide Better, DevicePriority, CreatedAt, Less;
    if a.modelId != b.modelId { BetterIsTotal(a, b); }
    RankLooksAtThree(a, b);
  }

  lemma RankLooksAtThree(a: ModelInfo, b: ModelInfo)
    requires !Better(a, b) && !Better(b, a) && a.modelId == b.modelId
    ensures a.version == b.version && CreatedAt(a) == CreatedAt(b)
  {
    hide DevicePriority, CreatedAt, Less;
  }

  lemma RankIsCongruent(a: ModelInfo, b: ModelInfo, c: ModelInfo)
    requires a.modelId == b.modelId && a.version == b.version && CreatedAt(a) == CreatedAt(b)
    ensures Better(a, c) == Better(b, c) && Better(c, a) == Better(c, b)
  {
    hide DevicePriority, CreatedAt, Less;
  }

  /** The strict weak order that std::sort and std::upper_bound demand. */
  lemma NotBetterIsTransitive(a: ModelInfo, b: ModelInfo, c: ModelInfo)
    requires !Better(a, b) && !Better(b, c)
    ensures !Better(a, c)
  {
    hide Better, CreatedAt;
    if Better(a, c) {
      if Better(c, b) {
        BetterIsTransitive(a, c, b);
      } else {
        EqualRank(b, c);
        RankIsCongruent(b, c, a);
      }
    }
  }

  // ---------------------------------------------------------------------
  // Sorted lists
  // ---------------------------------------------------------------------

  /** Best first: nothing later is better than anything earlier. */
  ghost predicate Sorted(s: seq<ModelInfo>) {
    forall i, j :: 0 <= i < j < |s| ==> !Better(s[j], s[i])
  }

  ghost predicate DistinctIds(s: seq<ModelInfo>) {
    forall i, j :: 0 <= i < j < |s| ==> s[i].modelId != s[j].modelId
  }

  /** The first entry from i on that the new one is better than, or the length. */
  function PointFrom(s: seq<ModelInfo>, x: ModelInfo, i: nat): (n: nat)
    requires i <= |s|
    ensures i <= n <= |s|
    decreases |s| - i
  {
    hide Better;
    if i == |s| || Better(x, s[i]) then i else PointFrom(s, x, i + 1)
  }

  lemma {:induction false} PointFromIsFirst(s: seq<ModelInfo>, x: ModelInfo, i: nat)
    requires i <= |s|
    ensures var n := PointFrom(s, x, i); (n < |s| ==> Better(x, s[n])) && forall k :: i <= k < n ==> !Better(x, s[k])
    decreases |s| - i
  {
    hide Better;
    if i < |s| && !Better(x, s[i]) { PointFromIsFirst(s, x, i + 1); }
  }

  /** What std::upper_bound finds. */
  function InsertionPoint(s: seq<ModelInfo>, x: ModelInfo): (n: nat)
    ensures n <= |s|
  {
    PointFrom(s, x, 0)
  }

  function Insert(s: seq<ModelInfo>, x: ModelInfo): seq<ModelInfo> {
    s[..InsertionPoint(s, x)] + [x] + s[InsertionPoint(s, x)..]
  }

  /** In a sorted list the new entry is better than everything behind its place. */
  lemma BetterThanTheRest(s: seq<ModelInfo>, x: ModelInfo, k: nat)
    requires Sorted(s) && InsertionPoint(s, x) <= k < |s|
    ensures Better(x, s[k])
  {
    var n := InsertionPoint(s, x);
    hide Better, PointFrom;
    PointFromIsFirst(s, x, 0);
    if k != n && !Better(x, s[k]) { NotBetterIsTransitive(x, s[k], s[n]); }
  }

  lemma PointIsUnique(s: seq<ModelInfo>, x: ModelInfo, n: nat)
    requires Sorted(s) && n <= |s| && (n > 0 ==> !Better(x, s[n - 1])) && (n < |s| ==> Better(x, s[n]))
    ensures n == InsertionPoint(s, x)
  {
    hide Better, PointFrom;
    PointFromIsFirst(s, x, 0);
    var m := InsertionPoint(s, x);
    if m < n { BetterThanTheRest(s, x, n - 1); }
  }

  lemma InsertKeepsSorted(s: seq<ModelInfo>, x: ModelInfo)
    requires Sorted(s)
    ensures Sorted(Insert(s, x))
  {
    hide Better, PointFrom;
    PointFromIsFirst(s, x, 0);
    var n := InsertionPoint(s, x);
    var r := Insert(s, x);
    forall i, j | 0 <= i < j < |r|
      ensures !Better(r[j], r[i])
    {
      if i == n {
        BetterThanTheRest(s, x, j - 1);
        BetterIsAsymmetric(x, s[j - 1]);
      }
    }
  }

  lemma BetterIsAsymmetric(a: ModelInfo, b: ModelInfo)
    requires Better(a, b)
    ensures !Better(b, a)
  {
    hide Better;
    if Better(b, a) {
      BetterIsTransitive(a, b, a);
      BetterIsIrreflexive(a);
    }
  }

  /** Rows of a listing: metadata and local path. */
  datatype Row = Row(info: ModelInfo, path: string)

  function Infos(rows: seq<Row>): (s: seq<ModelInfo>)
    ensures |s| == |rows| && forall i :: 0 <= i < |s| ==> s[i] == rows[i].info
  {
    seq(|rows|, i requires 0 <= i < |rows| => rows[i].info)
  }

  /** A row of a sorted list that shares its rank with the first row has its id. */
  lemma FirstRowsAgree(a: seq<Row>, b: seq<Row>)
    requires a != [] && b != [] && multiset(a) == multiset(b)
    requires Sorted(Infos(a)) && Sorted(Infos(b)) && DistinctIds(Infos(a))
    ensures a[0] == b[0]
  {
    hide Better;
    assert a[0] in multiset(b) && b[0] in multiset(a);
    var j :| 0 <= j < |b| && b[j] == a[0];
    var i :| 0 <= i < |a| && a[i] == b[0];
    assert Infos(a)[i] == Infos(b)[0] && Infos(b)[j] == Infos(a)[0];
    BetterIsIrreflexive(Infos(a)[0]);
    EqualRank(Infos(a)[0], Infos(a)[i]);
  }

  lemma TailsAgree(a: seq<Row>, b: seq<Row>)
    requires a != [] && b != [] && multiset(a) == multiset(b) && a[0] == b[0]
    ensures multiset(a[1..]) == multiset(b[1..])
  {
    assert a == [a[0]] + a[1..] && b == [b[0]] + b[1..];
    assert multiset(a) == multiset{a[0]} + multiset(a[1..]);
    assert multiset(b) == multiset{b[0]} + multiset(b[1..]);
    assert multiset(a[1..]) == multiset(a) - multiset{a[0]};
  }

  lemma TailIsSorted(a: seq<Row>)
    requires a != [] && Sorted(Infos(a))
    ensures Sorted(Infos(a[1..]))
  {
    hide Better;
    assert Infos(a[1..]) == Infos(a)[1..];
  }

  lemma TailIsDistinct(a: seq<Row>)
    requires a != [] && DistinctIds(Infos(a))
    ensures DistinctIds(Infos(a[1..]))
  {
    assert Infos(a[1..]) == Infos(a)[1..];
  }

  /** With distinct ids there is only one sorted order. */
  lemma {:induction false} SortedIsUnique(a: seq<Row>, b: seq<Row>)
    requires multiset(a) == multiset(b)
    requires Sorted(Infos(a)) && Sorted(Infos(b)) && DistinctIds(Infos(a))
    ensures a == b
  {
    assert |a| == |multiset(a)| == |multiset(b)| == |b|;
    if a != [] {
      hide Sorted, DistinctIds;
      FirstRowsAgree(a, b);
      TailsAgree(a, b);
      TailIsSorted(a);
      TailIsSorted(b);
      TailIsDistinct(a);
      SortedIsUnique(a[1..], b[1..]);
      assert a == [a[0]] + a[1..] && b == [b[0]] + b[1..];
    }
  }

  /** The rows after AddVariant. */
  function AddRow(rows: seq<Row>, row: Row): seq<Row> {
    var n := InsertionPoint(Infos(rows), row.info);
    rows[..n] + [row] + rows[n..]
  }

  lemma BagOfThree(a: seq<Row>, row: Row, b: seq<Row>)
    ensures multiset(a + [row] + b) == multiset(a + b) + multiset{row}
  {
  }

  lemma InfosOfAdd(rows: seq<Row>, row: Row)
    ensures Infos(AddRow(rows, row)) == Insert(Infos(rows), row.info)
  {
    hide InsertionPoint;
  }

  lemma AddRowAddsOne(rows: seq<Row>, row: Row)
    requires Sorted(Infos(rows))
    ensures Sorted(Infos(AddRow(rows, row))) && multiset(AddRow(rows, row)) == multiset(rows) + multiset{row}
  {
    hide Sorted, InsertionPoint;
    InsertKeepsSorted(Infos(rows), row.info);
    InfosOfAdd(rows, row);
    var n := InsertionPoint(Infos(rows), row.info);
    assert rows == rows[..n] + rows[n..];
    BagOfThree(rows[..n], row, rows[n..]);
  }

  /** The list that AddVariant builds when the variants come in this order. */
  function AddAll(rows: seq<Row>): seq<Row> {
    if rows == [] then [] else AddRow(AddAll(rows[..|rows| - 1]), rows[|rows| - 1])
  }

  lemma {:induction false} AddAllSorts(rows: seq<Row>)
    ensures Sorted(Infos(AddAll(rows))) && multiset(AddAll(rows)) == multiset(rows)
  {
    hide AddRow, Sorted;
    if rows != [] {
      var front, last := rows[..|rows| - 1], rows[|rows| - 1];
      AddAllSorts(front);
      AddRowAddsOne(AddAll(front), last);
      assert rows == front + [last];
    } else {
      NothingIsSorted();
    }
  }

  lemma NothingIsSorted()
    ensures Sorted(Infos([]))
  {
  }

  lemma FirstIsOther(rows: seq<Row>)
    requires rows != [] && DistinctIds(Infos(rows))
    ensures rows[0] !in rows[1..]
  {
    forall k | 1 <= k < |rows|
      ensures rows[k] != rows[0]
    {
      assert Infos(rows)[0].modelId != Infos(rows)[k].modelId;
    }
  }

  lemma {:induction false} AtMostOnce(rows: seq<Row>, row: Row)
    requires DistinctIds(Infos(rows))
    ensures multiset(rows)[row] <= 1
  {
    if rows != [] {
      TailIsDistinct(rows);
      AtMostOnce(rows[1..], row);
      assert rows == [rows[0]] + rows[1..];
      FirstIsOther(rows);
      hide DistinctIds, Infos;
    }
  }

  lemma CountedTwice(rows: seq<Row>, i: nat, j: nat)
    requires i < j < |rows| && rows[i] == rows[j]
    ensures multiset(rows)[rows[i]] >= 2
  {
    assert rows == rows[..j] + rows[j..];
    assert rows[i] in rows[..j] && rows[i] in rows[j..];
  }

  lemma DistinctIdsPermute(a: seq<Row>, b: seq<Row>)
    requires multiset(a) == multiset(b) && DistinctIds(Infos(a))
    ensures DistinctIds(Infos(b))
  {
    forall i, j | 0 <= i < j < |b|
      ensures Infos(b)[i].modelId != Infos(b)[j].modelId
    {
      assert b[i] in multiset(a) && b[j] in multiset(a);
      var p :| 0 <= p < |a| && a[p] == b[i];
      var q :| 0 <= q < |a| && a[q] == b[j];
      assert Infos(a)[p] == Infos(b)[i] && Infos(a)[q] == Infos(b)[j];
      if p == q {
        CountedTwice(b, i, j);
        AtMostOnce(a, b[i]);
      }
    }
  }

  /** Whatever the order in which variants are added, the list comes out the same. */
  lemma InsertionOrderIsIrrelevant(a: seq<Row>, b: seq<Row>)
    requires multiset(a) == multiset(b) && DistinctIds(Infos(a))
    ensures AddAll(a) == AddAll(b)
  {
    AddAllSorts(a);
    AddAllSorts(b);
    DistinctIdsPermute(a, AddAll(a));
    SortedIsUnique(AddAll(a), AddAll(b));
  }
}
