/**
  What the version markers of the build script promise, whatever becomes of each file
  operation (sdk_v2/rust/build_support.rs:212-304, sdk_v2/rust/build.rs:244-297,
  323-461, 562-606).
*/
module VersionMarkerProperties {
  import UrlRedaction
  import opened VersionMarkers

  // ---------------------------------------------------------------------
  // What markers promise
  // ---------------------------------------------------------------------

  /** The expected files and the versions that any build configures. */
  datatype Known = Known(names: set<string>, versions: set<string>)

  /** The marker is the version that the file was staged from, or the beginning of it. */
  ghost predicate Backed(e: string, file: Payload, marker: string) {
    file.source == e && file.whole && marker <= file.version
  }

  /** Markers stand beside finished copies of their own package's expected file only. */
  ghost predicate Honest(d: Disk) {
    forall e :: e in d.markers && e in d.payload ==> Backed(e, d.payload[e], d.markers[e])
  }

  ghost predicate Begins(marker: string, versions: set<string>) { exists v :: v in versions && marker <= v }

  /** Nothing is there but files and markers of what is configured. */
  ghost predicate Sound(d: Disk, known: Known) {
    && d.markers.Keys <= known.names
    && (forall f :: f in d.payload ==> d.payload[f].version in known.versions)
    && (forall e :: e in d.markers ==> Begins(d.markers[e], known.versions))
  }

  ghost predicate Good(d: Disk, known: Known) { Sound(d, known) && Honest(d) }

  ghost predicate KeepsGood(before: Disk, after: Disk, known: Known) { Good(before, known) ==> Good(after, known) }

  /** No other version has a beginning that reads, trimmed, like this one. */
  ghost predicate Unambiguous(version: string, versions: set<string>) {
    forall v, n :: v in versions && 0 <= n <= |v| && Trim(v[..n]) == version ==> v == version
  }

  lemma CurrentIsStaged(d: Disk, package: Package, known: Known)
    requires Good(d, known) && Unambiguous(package.version, known.versions) && d.IsCurrent(package)
    ensures d.payload[package.expected] == Payload(package.expected, package.version, true)
  {
    hide Trim;
    var e := package.expected;
    assert Backed(e, d.payload[e], d.markers[e]);
    var v, n := d.payload[e].version, |d.markers[e]|;
    assert v[..n] == d.markers[e];
  }

  predicate AllWhitespace(s: string) { forall i | 0 <= i < |s| :: UrlRedaction.IsWhitespace(s[i]) }

  /** No whitespace at either end. */
  predicate Trimmed(s: string) {
    s == "" || (!UrlRedaction.IsWhitespace(s[0]) && !UrlRedaction.IsWhitespace(s[|s| - 1]))
  }

  lemma {:induction false} TrimStartDoes(s: string) returns (front: string)
    ensures s == front + TrimStart(s) && AllWhitespace(front)
    ensures TrimStart(s) != "" ==> !UrlRedaction.IsWhitespace(TrimStart(s)[0])
    decreases |s|
  {
    front := "";
    if s != "" && UrlRedaction.IsWhitespace(s[0]) {
      var rest := TrimStartDoes(s[1..]);
      front := [s[0]] + rest;
      assert s == [s[0]] + s[1..];
    }
  }

  lemma {:induction false} TrimEndDoes(s: string) returns (end: string)
    ensures s == TrimEnd(s) + end && AllWhitespace(end)
    ensures TrimEnd(s) != "" ==> !UrlRedaction.IsWhitespace(TrimEnd(s)[|TrimEnd(s)| - 1])
    decreases |s|
  {
    end := "";
    if s != "" && UrlRedaction.IsWhitespace(s[|s| - 1]) {
      var rest := TrimEndDoes(s[..|s| - 1]);
      end := rest + [s[|s| - 1]];
      assert s == s[..|s| - 1] + [s[|s| - 1]];
    }
  }

  /** Trimming takes whitespace off both ends and nothing else. */
  lemma TrimDoes(s: string) returns (front: string, end: string)
    ensures s == front + Trim(s) + end && AllWhitespace(front) && AllWhitespace(end) && Trimmed(Trim(s))
  {
    front := TrimStartDoes(s);
    end := TrimEndDoes(TrimStart(s));
    hide TrimStart, TrimEnd, UrlRedaction.IsWhitespace;
    assert s == front + (Trim(s) + end) == front + Trim(s) + end;
    assert Trim(s) != "" ==> Trim(s)[0] == TrimStart(s)[0];
  }

  // ---------------------------------------------------------------------
  // What operations leave alone
  // ---------------------------------------------------------------------

  ghost predicate SameFiles(a: Disk, b: Disk) { a.payload == b.payload && a.markers == b.markers }

  /** No package ships the expected file of another one. */
  ghost predicate Separate(files: seq<string>, package: Package, known: Known) {
    forall f :: f in files && f in known.names ==> f == package.expected
  }

  ghost predicate Configured(package: Package, known: Known) {
    package.expected in known.names && package.version in known.versions
  }

  /** What is found for a package; an archive counts as extracted only with the expected file. */
  ghost predicate ProperWanted(w: Wanted, known: Known) {
    && Configured(w.package, known)
    && (forall i :: 0 <= i < |w.feeds| && w.feeds[i].Some? ==>
          Separate(w.feeds[i].value, w.package, known) && w.package.expected in w.feeds[i].value)
    && (w.restored.Some? ==> Separate(w.restored.value, w.package, known))
  }

  /** Packages with different expected files. */
  ghost predicate Proper(wanted: seq<Wanted>, known: Known) {
    && (forall i :: 0 <= i < |wanted| ==> ProperWanted(wanted[i], known))
    && (forall i, j :: 0 <= i < j < |wanted| ==> wanted[i].package.expected != wanted[j].package.expected)
  }

  /** The same file and the same marker, or none. */
  ghost predicate Untouched(a: Disk, b: Disk, e: string) {
    && (e in b.payload <==> e in a.payload) && (e in b.payload ==> b.payload[e] == a.payload[e])
    && (e in b.markers <==> e in a.markers) && (e in b.markers ==> b.markers[e] == a.markers[e])
  }

  /** Only these packages' expected files and markers may differ. */
  ghost predicate Apart(a: Disk, b: Disk, es: set<string>, known: Known) {
    && (forall e :: e in known.names && e !in es ==> Untouched(a, b, e))
    && (forall e :: e in b.markers && e !in es ==> e in a.markers)
  }

  /** The whole expected file of this version is there, and recorded. */
  ghost predicate Staged(d: Disk, package: Package) {
    var e := package.expected;
    && e in d.payload && d.payload[e] == Payload(e, package.version, true)
    && e in d.markers && d.markers[e] == package.version
  }

  lemma ApartSelf(a: Disk, b: Disk, es: set<string>, known: Known)
    requires SameFiles(a, b)
    ensures Apart(a, b, es, known)
  {
  }

  lemma ApartTrans(a: Disk, b: Disk, c: Disk, es: set<string>, fs: set<string>, known: Known)
    requires Apart(a, b, es, known) && Apart(b, c, fs, known)
    ensures Apart(a, c, es + fs, known)
  {
  }

  lemma ApartTwice(a: Disk, b: Disk, c: Disk, es: set<string>, known: Known)
    requires Apart(a, b, es, known) && Apart(b, c, es, known)
    ensures Apart(a, c, es, known)
  {
    ApartTrans(a, b, c, es, es, known);
    assert es + es == es;
  }

  lemma SameKeepsGood(a: Disk, b: Disk, known: Known)
    requires SameFiles(a, b)
    ensures (Sound(a, known) ==> Sound(b, known)) && KeepsGood(a, b, known)
  {
  }

  /** Markers stay honest if the one package that was worked on has no marker or a backed one. */
  lemma ApartKeepsGood(a: Disk, b: Disk, e: string, known: Known)
    requires Apart(a, b, {e}, known) && Sound(b, known)
    requires e in b.markers && e in b.payload ==> Backed(e, b.payload[e], b.markers[e])
    ensures KeepsGood(a, b, known)
  {
    if Good(a, known) {
      forall m | m in b.markers && m in b.payload
        ensures Backed(m, b.payload[m], b.markers[m])
      {
        if m != e {
          assert Untouched(a, b, m);
        }
      }
    }
  }

  /** Nothing but what a reset removes is gone, and nothing else has changed. */
  ghost predicate Loses(before: Disk, after: Disk) {
    && after.payload.Keys <= before.payload.Keys && after.markers.Keys <= before.markers.Keys
    && (forall f :: f in after.payload ==> after.payload[f] == before.payload[f])
    && (forall e :: e in after.markers ==> after.markers[e] == before.markers[e])
  }

  lemma LosingKeepsGood(a: Disk, b: Disk, known: Known)
    requires Loses(a, b)
    ensures (Sound(a, known) ==> Sound(b, known)) && KeepsGood(a, b, known)
  {
  }

  // ---------------------------------------------------------------------
  // Checks
  // ---------------------------------------------------------------------

  lemma CheckKeeps(d: Disk, package: Package)
    ensures SameFiles(d, Check(d, package).disk)
    ensures Check(d, package).ok ==> d.IsCurrent(package)
    ensures d.outcomes == [] ==> Check(d, package) == Result(d, d.IsCurrent(package))
  {
  }

  lemma {:induction false} CheckAllKeeps(d: Disk, packages: seq<Package>)
    ensures SameFiles(d, CheckAll(d, packages).disk)
    ensures CheckAll(d, packages).ok ==> AllCurrent(d, packages)
    ensures d.outcomes == [] ==> CheckAll(d, packages) == Result(d, AllCurrent(d, packages))
    decreases |packages|
  {
    if packages != [] {
      CheckKeeps(d, packages[0]);
      hide Check;
      assert packages == [packages[0]] + packages[1..];
      CheckAllKeeps(Check(d, packages[0]).disk, packages[1..]);
    }
  }

  // ---------------------------------------------------------------------
  // One package
  // ---------------------------------------------------------------------

  lemma CopyShape(d: Disk, f: string, package: Package, known: Known)
    requires Sound(d, known) && Configured(package, known)
    requires f in known.names ==> f == package.expected
    ensures var r, e := Copy(d, f, package), package.expected;
            && Sound(r.disk, known) && Apart(d, r.disk, {e}, known) && r.disk.markers == d.markers
            && (r.ok ==> f in r.disk.payload && r.disk.payload[f] == Payload(e, package.version, true))
            && (r.ok && f != e && e in d.payload ==> e in r.disk.payload && r.disk.payload[e] == d.payload[e])
  {
  }

  ghost predicate Whole(d: Disk, package: Package) {
    var e := package.expected;
    e in d.payload && d.payload[e] == Payload(e, package.version, true)
  }

  lemma {:induction false} StageShape(d: Disk, files: seq<string>, package: Package, known: Known)
    requires Sound(d, known) && Configured(package, known) && Separate(files, package, known)
    ensures var r := Stage(d, files, package);
            && Sound(r.disk, known) && Apart(d, r.disk, {package.expected}, known) && r.disk.markers == d.markers
            && (r.ok && (package.expected in files || Whole(d, package)) ==> Whole(r.disk, package))
    decreases |files|
  {
    if files == [] {
      ApartSelf(d, d, {package.expected}, known);
    } else {
      CopyShape(d, files[0], package, known);
      hide Sound, Copy, Apart;
      var copied := Copy(d, files[0], package);
      var touched := Touch(copied.disk);
      if copied.ok {
        SameKeepsGood(copied.disk, touched.disk, known);
        ApartSelf(copied.disk, touched.disk, {package.expected}, known);
        ApartTwice(d, copied.disk, touched.disk, {package.expected}, known);
        if touched.ok {
          StageShape(touched.disk, files[1..], package, known);
          ApartTwice(d, touched.disk, Stage(d, files, package).disk, {package.expected}, known);
        }
      }
    }
  }

  /**
    What one package's acquisition promises.  The markers stay honest if it succeeds,
    or if the package had no marker to begin with.
  */
  ghost predicate Kept(d: Disk, r: Result, package: Package, known: Known) {
    && Sound(r.disk, known) && Apart(d, r.disk, {package.expected}, known)
    && (r.ok ==> Staged(r.disk, package))
    && (r.ok || package.expected !in d.markers ==> KeepsGood(d, r.disk, known))
  }

  /** A copy that did not get as far as the marker. */
  lemma PartKeeps(d: Disk, part: Disk, package: Package, known: Known)
    requires Sound(part, known) && Apart(d, part, {package.expected}, known) && part.markers == d.markers
    ensures Kept(d, Result(part, false), package, known)
  {
    hide Sound, Apart;
    if package.expected !in d.markers {
      ApartKeepsGood(d, part, package.expected, known);
    }
  }

  lemma RecordShape(d: Disk, package: Package, known: Known)
    requires Sound(d, known) && Configured(package, known)
    ensures var r, e := Record(d, package), package.expected;
            && Sound(r.disk, known) && Apart(d, r.disk, {e}, known) && r.disk.payload == d.payload
            && (r.ok ==> e in r.disk.markers && r.disk.markers[e] == package.version)
            && (e in r.disk.markers && e !in d.markers ==> r.disk.markers[e] <= package.version)
  {
    var v, n := package.version, d.Next();
    if n.Torn? {
      var part := v[..if n.length <= |v| then n.length else |v|];
      assert part <= v;
      assert Begins(part, known.versions);
    }
    assert Begins(v, known.versions);
  }

  /** Recording a staged version, however the write ends. */
  lemma RecordKeeps(d: Disk, staged: Disk, package: Package, known: Known)
    requires Sound(staged, known) && Apart(d, staged, {package.expected}, known) && staged.markers == d.markers
    requires Configured(package, known) && Whole(staged, package)
    ensures Kept(d, Record(staged, package), package, known)
  {
    RecordShape(staged, package, known);
    hide Sound, Apart, Record;
    var r := Record(staged, package).disk;
    ApartTwice(d, staged, r, {package.expected}, known);
    if Record(staged, package).ok || package.expected !in d.markers {
      ApartKeepsGood(d, r, package.expected, known);
    }
  }

  lemma StageAndRecordKeeps(d: Disk, files: seq<string>, package: Package, known: Known)
    requires Sound(d, known) && Configured(package, known)
    requires Separate(files, package, known) && package.expected in files
    ensures Kept(d, StageAndRecord(d, files, package), package, known)
  {
    hide Kept, Sound, Apart, Stage, Record;
    StageShape(d, files, package, known);
    var staged := Stage(d, files, package);
    if staged.ok {
      RecordKeeps(d, staged.disk, package, known);
    } else {
      PartKeeps(d, staged.disk, package, known);
    }
  }

  lemma StageSeeAndRecordKeeps(d: Disk, files: seq<string>, package: Package, known: Known)
    requires Sound(d, known) && Configured(package, known)
    requires Separate(files, package, known) && package.expected in files
    ensures Kept(d, StageSeeAndRecord(d, files, package), package, known)
  {
    hide Kept, Sound, Apart, Stage, Record;
    StageShape(d, files, package, known);
    var staged := Stage(d, files, package);
    if staged.ok {
      var seen := Touch(staged.disk);
      SameKeepsGood(staged.disk, seen.disk, known);
      ApartSelf(staged.disk, seen.disk, {package.expected}, known);
      ApartTwice(d, staged.disk, seen.disk, {package.expected}, known);
      if seen.ok {
        RecordKeeps(d, seen.disk, package, known);
      } else {
        PartKeeps(d, seen.disk, package, known);
      }
    } else {
      PartKeeps(d, staged.disk, package, known);
    }
  }

  /** Some feed yields the package's files. */
  predicate Yields(found: seq<Option<seq<string>>>) { exists i | 0 <= i < |found| :: found[i].Some? }

  lemma {:induction false} DownloadFromKeeps(d: Disk, w: Wanted, from: nat, known: Known)
    requires from <= |w.feeds| && Sound(d, known) && ProperWanted(w, known)
    ensures Kept(d, DownloadFrom(d, w.package, w.feeds[from..]), w.package, known)
    ensures !Yields(w.feeds) ==> DownloadFrom(d, w.package, w.feeds[from..]) == Result(d, false)
    decreases |w.feeds| - from
  {
    var rest := w.feeds[from..];
    if rest == [] {
      ApartSelf(d, d, {w.package.expected}, known);
      PartKeeps(d, d, w.package, known);
    } else {
      hide StageAndRecord, Sound, Kept;
      assert rest[0] == w.feeds[from] && rest[1..] == w.feeds[from + 1..];
      if rest[0].Some? {
        StageAndRecordKeeps(d, rest[0].value, w.package, known);
      } else {
        DownloadFromKeeps(d, w, from + 1, known);
      }
    }
  }

  /** download_and_extract would fetch the package if it did not find it current. */
  predicate Fetches(w: Wanted) { Trim(w.package.version) != "" && Yields(w.feeds) }

  /** Staged just now, or current before and untouched since. */
  ghost predicate Acquired(d: Disk, after: Disk, package: Package) {
    Staged(after, package) || (d.IsCurrent(package) && Untouched(d, after, package.expected))
  }

  /**
    download_and_extract.  Markers stay honest if it succeeds, if the package has no
    marker, or if there is nothing to fetch.
  */
  lemma DownloadKeeps(d: Disk, w: Wanted, known: Known)
    requires Sound(d, known) && ProperWanted(w, known)
    ensures var r := Download(d, w.package, w.feeds);
            && Sound(r.disk, known) && Apart(d, r.disk, {w.package.expected}, known)
            && (r.ok ==> Acquired(d, r.disk, w.package))
            && (r.ok || w.package.expected !in d.markers || !Fetches(w) ==> KeepsGood(d, r.disk, known))
            && (!Fetches(w) ==> SameFiles(d, r.disk))
  {
    var checked := Check(d, w.package).disk;
    CheckKeeps(d, w.package);
    SameKeepsGood(d, checked, known);
    ApartSelf(d, checked, {w.package.expected}, known);
    assert w.feeds[0..] == w.feeds;
    DownloadFromKeeps(checked, w, 0, known);
    hide Good, Sound, Check, DownloadFrom, Apart, Staged, ProperWanted;
    ApartTwice(d, checked, DownloadFrom(checked, w.package, w.feeds).disk, {w.package.expected}, known);
  }

  /** File first, marker second, and either may fail. */
  lemma InvalidateLoses(d: Disk, e: string, known: Known)
    ensures var r := Invalidate(d, e);
            Loses(d, r.disk) && Apart(d, r.disk, {e}, known) && (r.ok ==> e !in r.disk.payload && e !in r.disk.markers)
  {
  }

  /** stage_restored_package: markers stay honest however it ends. */
  lemma StageRestoredKeeps(d: Disk, w: Wanted, known: Known)
    requires Sound(d, known) && ProperWanted(w, known)
    ensures var r := StageRestored(d, w.package, w.restored);
            && Sound(r.disk, known) && Apart(d, r.disk, {w.package.expected}, known)
            && (r.ok ==> Staged(r.disk, w.package)) && KeepsGood(d, r.disk, known)
  {
    var e := w.package.expected;
    ApartSelf(d, d, {e}, known);
    InvalidateLoses(d, e, known);
    var cleared := Invalidate(d, e).disk;
    LosingKeepsGood(d, cleared, known);
    hide Good, Sound, Apart, Invalidate, StageSeeAndRecord, Staged;
    if w.restored.Some? && w.restored.value != [] && e in w.restored.value && Invalidate(d, e).ok {
      StageSeeAndRecordKeeps(cleared, w.restored.value, w.package, known);
      ApartTwice(d, cleared, StageSeeAndRecord(cleared, w.restored.value, w.package).disk, {e}, known);
    }
  }

  // ---------------------------------------------------------------------
  // The loops
  // ---------------------------------------------------------------------

  function ExpectedOf(wanted: seq<Wanted>): set<string> { set w | w in wanted :: w.package.expected }

  lemma ProperTail(wanted: seq<Wanted>, known: Known)
    requires Proper(wanted, known) && wanted != []
    ensures ProperWanted(wanted[0], known) && Proper(wanted[1..], known)
    ensures wanted[0].package.expected !in ExpectedOf(wanted[1..]) && wanted[0].package.expected in known.names
    ensures ExpectedOf(wanted) == {wanted[0].package.expected} + ExpectedOf(wanted[1..])
  {
    assert Configured(wanted[0].package, known);
    hide ProperWanted;
    assert ProperWanted(wanted[0], known);
  }

  ghost predicate AllAcquired(d: Disk, after: Disk, wanted: seq<Wanted>) {
    forall w :: w in wanted ==> Acquired(d, after, w.package)
  }

  ghost predicate AllStaged(after: Disk, wanted: seq<Wanted>) { forall w :: w in wanted ==> Staged(after, w.package) }

  lemma StaysAcquired(d: Disk, a: Disk, b: Disk, package: Package, es: set<string>, known: Known)
    requires Apart(a, b, es, known) && package.expected in known.names && package.expected !in es
    ensures Acquired(d, a, package) ==> Acquired(d, b, package)
    ensures Staged(a, package) ==> Staged(b, package)
  {
    assert Untouched(a, b, package.expected);
  }

  lemma AcquiredFromBefore(d: Disk, a: Disk, b: Disk, package: Package, es: set<string>, known: Known)
    requires Apart(d, a, es, known) && package.expected in known.names && package.expected !in es
    requires Acquired(a, b, package)
    ensures Acquired(d, b, package)
  {
    assert Untouched(d, a, package.expected);
  }

  lemma NameIsKnown(wanted: seq<Wanted>, w: Wanted, known: Known)
    requires Proper(wanted, known) && w in wanted
    ensures w.package.expected in known.names && ProperWanted(w, known)
  {
    assert ProperWanted(w, known);
  }

  /** The first package, then the others. */
  lemma AcquireInTurn(d: Disk, a: Disk, b: Disk, wanted: seq<Wanted>, known: Known)
    requires Proper(wanted, known) && wanted != [] && Acquired(d, a, wanted[0].package)
    requires Apart(d, a, {wanted[0].package.expected}, known) && Apart(a, b, ExpectedOf(wanted[1..]), known)
    requires AllAcquired(a, b, wanted[1..])
    ensures AllAcquired(d, b, wanted)
  {
    ProperTail(wanted, known);
    hide Proper, Apart, Acquired;
    StaysAcquired(d, a, b, wanted[0].package, ExpectedOf(wanted[1..]), known);
    forall w | w in wanted[1..]
      ensures Acquired(d, b, w.package)
    {
      NameIsKnown(wanted[1..], w, known);
      AcquiredFromBefore(d, a, b, w.package, {wanted[0].package.expected}, known);
    }
    assert wanted == [wanted[0]] + wanted[1..];
  }

  lemma StageInTurn(a: Disk, b: Disk, wanted: seq<Wanted>, known: Known)
    requires Proper(wanted, known) && wanted != [] && Staged(a, wanted[0].package)
    requires Apart(a, b, ExpectedOf(wanted[1..]), known) && AllStaged(b, wanted[1..])
    ensures AllStaged(b, wanted)
  {
    ProperTail(wanted, known);
    hide Proper, Apart, Staged;
    StaysAcquired(a, a, b, wanted[0].package, ExpectedOf(wanted[1..]), known);
    assert wanted == [wanted[0]] + wanted[1..];
  }

  lemma ApartKeepsUnmarked(a: Disk, b: Disk, e: string, wanted: seq<Wanted>, known: Known)
    requires Apart(a, b, {e}, known) && e !in ExpectedOf(wanted) && a.markers.Keys !! ExpectedOf(wanted)
    ensures b.markers.Keys !! ExpectedOf(wanted)
  {
  }

  ghost predicate NothingToFetch(wanted: seq<Wanted>) { forall w :: w in wanted ==> !Fetches(w) }

  /**
    The HTTP loop.  Markers stay honest if it succeeds, if no package has a marker, or
    if there is nothing to fetch.
  */
  lemma {:induction false} DownloadAllKeeps(d: Disk, wanted: seq<Wanted>, known: Known)
    requires Sound(d, known) && Proper(wanted, known)
    ensures var r := DownloadAll(d, wanted);
            && Sound(r.disk, known) && Apart(d, r.disk, ExpectedOf(wanted), known)
            && (r.ok ==> AllAcquired(d, r.disk, wanted))
            && (r.ok || d.markers.Keys !! ExpectedOf(wanted) || NothingToFetch(wanted) ==> KeepsGood(d, r.disk, known))
    decreases |wanted|
  {
    if wanted == [] {
      ApartSelf(d, d, {}, known);
    } else {
      ProperTail(wanted, known);
      var w, e, tail := wanted[0], wanted[0].package.expected, wanted[1..];
      assert wanted == [w] + tail;
      assert e in ExpectedOf(wanted);
      hide Good, Sound, Apart, Proper, ProperWanted, Acquired, Download, AllAcquired, ExpectedOf, Fetches;
      DownloadKeeps(d, w, known);
      var first := Download(d, w.package, w.feeds);
      if d.markers.Keys !! ExpectedOf(wanted) {
        ApartKeepsUnmarked(d, first.disk, e, tail, known);
      }
      DownloadAllKeeps(first.disk, tail, known);
      var others := DownloadAll(first.disk, tail);
      ApartTrans(d, first.disk, others.disk, {e}, ExpectedOf(tail), known);
      if first.ok && others.ok {
        AcquireInTurn(d, first.disk, others.disk, wanted, known);
      }
    }
  }

  /** The dotnet and nuget loops: markers stay honest wherever they stop. */
  lemma {:induction false} RestoreAllKeeps(d: Disk, wanted: seq<Wanted>, known: Known)
    requires Sound(d, known) && Proper(wanted, known)
    ensures var r := RestoreAll(d, wanted);
            && Sound(r.disk, known) && Apart(d, r.disk, ExpectedOf(wanted), known)
            && (r.ok ==> AllStaged(r.disk, wanted)) && KeepsGood(d, r.disk, known)
    decreases |wanted|
  {
    if wanted == [] {
      ApartSelf(d, d, {}, known);
    } else {
      ProperTail(wanted, known);
      var w, e, tail := wanted[0], wanted[0].package.expected, wanted[1..];
      hide Good, Sound, Apart, Proper, ProperWanted, Staged, StageRestored, AllStaged, ExpectedOf;
      StageRestoredKeeps(d, w, known);
      var first := StageRestored(d, w.package, w.restored);
      if first.ok {
        RestoreAllKeeps(first.disk, tail, known);
        var others := RestoreAll(first.disk, tail);
        ApartTrans(d, first.disk, others.disk, {e}, ExpectedOf(tail), known);
        if others.ok {
          StageInTurn(first.disk, others.disk, wanted, known);
        }
      } else {
        ApartSelf(first.disk, first.disk, ExpectedOf(tail), known);
        ApartTrans(d, first.disk, first.disk, {e}, ExpectedOf(tail), known);
      }
    }
  }

  lemma ProperCons(w: Wanted, others: seq<Wanted>, tail: seq<Wanted>, known: Known)
    requires ProperWanted(w, known) && Proper(others, known) && w.package.expected !in ExpectedOf(tail)
    requires forall o :: o in others ==> o in tail
    ensures Proper([w] + others, known)
  {
    hide ProperWanted;
    forall i | 0 <= i < |others|
      ensures others[i].package.expected != w.package.expected
    {
      assert others[i] in tail;
    }
  }

  /**
    missing_packages leaves out current packages only, keeps the others in order, and
    exactly those if every look and read succeeds.
  */
  lemma {:induction false} MissingIsStale(d: Disk, wanted: seq<Wanted>, known: Known)
    requires Proper(wanted, known)
    ensures var r := Missing(d, wanted);
            && SameFiles(d, r.disk) && Proper(r.missing, known)
            && (forall w :: w in r.missing ==> w in wanted)
            && (forall w :: w in wanted && !d.IsCurrent(w.package) ==> w in r.missing)
            && (d.outcomes == [] ==> r.disk == d && forall w :: w in r.missing ==> !d.IsCurrent(w.package))
    decreases |wanted|
  {
    if wanted != [] {
      ProperTail(wanted, known);
      var w, tail := wanted[0], wanted[1..];
      assert wanted == [w] + tail;
      CheckKeeps(d, w.package);
      var checked := Check(d, w.package);
      hide Check;
      MissingIsStale(checked.disk, tail, known);
      var others := Missing(checked.disk, tail).missing;
      ProperCons(w, others, tail, known);
      hide Proper, ExpectedOf;
    }
  }

  // ---------------------------------------------------------------------
  // A whole build
  // ---------------------------------------------------------------------

  function NamesOf(packages: seq<Package>): set<string> { set p | p in packages :: p.expected }

  function SetOf(s: seq<string>): set<string> { set f | f in s }

  lemma {:induction false} RemoveFilesRemoves(d: Disk, native: seq<string>)
    ensures var r := RemoveFiles(d, native);
            && r.disk.markers == d.markers && Loses(d, r.disk)
            && (r.ok ==> r.disk.payload == d.payload - SetOf(native))
    decreases |native|
  {
    if native != [] {
      assert SetOf(native) == {native[0]} + SetOf(native[1..]);
      if native[0] in d.payload {
        RemoveFilesRemoves(RemovePayload(Touch(d).disk, native[0]).disk, native[1..]);
      } else {
        RemoveFilesRemoves(d, native[1..]);
      }
    }
  }

  lemma {:induction false} RemoveMarkersRemoves(d: Disk, packages: seq<Package>)
    ensures var r := RemoveMarkers(d, packages);
            && r.disk.payload == d.payload && Loses(d, r.disk)
            && (r.ok ==> r.disk.markers == d.markers - NamesOf(packages))
    decreases |packages|
  {
    if packages != [] {
      assert NamesOf(packages) == {packages[0].expected} + NamesOf(packages[1..]);
      RemoveMarkersRemoves(RemoveMarker(d, packages[0].expected).disk, packages[1..]);
    }
  }

  /**
    A reset that succeeds has found everything current and done nothing, or has removed
    native files and markers; one that is cut only loses some of them.
  */
  lemma ResetRemoves(d: Disk, packages: seq<Package>, native: seq<string>)
    ensures var r := ResetIfStale(d, packages, native);
            && Loses(d, r.disk)
            && (r.ok ==> (AllCurrent(d, packages) && SameFiles(d, r.disk))
                         || (r.disk.payload == d.payload - SetOf(native)
                             && r.disk.markers == d.markers - NamesOf(packages)))
            && (d.outcomes == [] && AllCurrent(d, packages) ==> r == Result(d, true))
  {
    CheckAllKeeps(d, packages);
    var listed := Touch(CheckAll(d, packages).disk).disk;
    RemoveFilesRemoves(listed, native);
    RemoveMarkersRemoves(RemoveFiles(listed, native).disk, packages);
    hide AllCurrent, CheckAll, RemoveFiles, RemoveMarkers;
  }

  lemma NamesOfPackages(wanted: seq<Wanted>)
    ensures NamesOf(Packages(wanted)) == ExpectedOf(wanted)
  {
    PackagesOf(wanted);
    forall e | e in ExpectedOf(wanted)
      ensures e in NamesOf(Packages(wanted))
    {
      var w :| w in wanted && w.package.expected == e;
      assert w.package in Packages(wanted);
    }
    forall e | e in NamesOf(Packages(wanted))
      ensures e in ExpectedOf(wanted)
    {
      var p :| p in Packages(wanted) && p.expected == e;
      assert exists w :: w in wanted && w.package == p;
    }
  }

  lemma PackagesOf(wanted: seq<Wanted>)
    ensures forall w :: w in wanted ==> w.package in Packages(wanted)
    ensures forall p :: p in Packages(wanted) ==> exists w :: w in wanted && w.package == p
  {
    var packages := Packages(wanted);
    forall w | w in wanted
      ensures w.package in packages
    {
      var i :| 0 <= i < |wanted| && wanted[i] == w;
      assert packages[i] == w.package;
    }
    forall p | p in packages
      ensures exists w :: w in wanted && w.package == p
    {
      var i :| 0 <= i < |packages| && packages[i] == p;
      assert wanted[i] in wanted && wanted[i].package == p;
    }
  }

  /** Looking for missing packages and restoring them. */
  lemma RestoreMissingKeeps(d: Disk, wanted: seq<Wanted>, known: Known)
    requires Sound(d, known) && Proper(wanted, known)
    ensures var sieved := Missing(d, wanted);
            var r := RestoreAll(sieved.disk, sieved.missing);
            Sound(r.disk, known) && (r.ok ==> AllAcquired(d, r.disk, wanted)) && KeepsGood(d, r.disk, known)
  {
    MissingIsStale(d, wanted, known);
    var sieved := Missing(d, wanted);
    SameKeepsGood(d, sieved.disk, known);
    hide Good, Sound, Missing, RestoreAll;
    RestoreAllKeeps(sieved.disk, sieved.missing, known);
    var r := RestoreAll(sieved.disk, sieved.missing);
    if r.ok {
      forall w | w in wanted
        ensures Acquired(d, r.disk, w.package)
      {
        if w !in sieved.missing {
          LeftOut(wanted, sieved.missing, w, known);
          assert Untouched(sieved.disk, r.disk, w.package.expected);
        }
      }
    }
  }

  lemma LeftOut(wanted: seq<Wanted>, missing: seq<Wanted>, w: Wanted, known: Known)
    requires Proper(wanted, known) && (forall o :: o in missing ==> o in wanted) && w in wanted && w !in missing
    ensures w.package.expected !in ExpectedOf(missing) && w.package.expected in known.names
  {
    NameIsKnown(wanted, w, known);
    hide ProperWanted;
  }

  /** The markers of this build's packages stay honest whatever fails. */
  ghost predicate KeepsMarkers(d: Disk, b: Build) {
    b.mode == Restore || !AllCurrent(d, Packages(b.wanted)) || NothingToFetch(b.wanted)
  }

  lemma UnmarkedIsStaged(d: Disk, after: Disk, wanted: seq<Wanted>)
    requires d.markers.Keys !! ExpectedOf(wanted) && AllAcquired(d, after, wanted)
    ensures AllStaged(after, wanted)
  {
    forall w | w in wanted
      ensures Staged(after, w.package)
    {
      assert w.package.expected in ExpectedOf(wanted);
    }
  }

  lemma SameAcquired(d: Disk, a: Disk, after: Disk, wanted: seq<Wanted>)
    requires SameFiles(d, a) && AllAcquired(a, after, wanted)
    ensures AllAcquired(d, after, wanted)
  {
    forall w | w in wanted
      ensures Acquired(d, after, w.package)
    {
      assert Acquired(a, after, w.package);
    }
  }

  /** What comes behind a successful reset. */
  lemma AcquireBehindReset(d: Disk, reset: Disk, b: Build, known: Known)
    requires Sound(reset, known) && Proper(b.wanted, known)
    ensures var sieved := Missing(reset, b.wanted);
            var r := if b.mode == Http then DownloadAll(reset, b.wanted) else RestoreAll(sieved.disk, sieved.missing);
            && Sound(r.disk, known) && (r.ok ==> AllAcquired(reset, r.disk, b.wanted))
            && (r.ok || b.mode == Restore || reset.markers.Keys !! ExpectedOf(b.wanted) || NothingToFetch(b.wanted) ==>
                  KeepsGood(reset, r.disk, known))
  {
    hide Good, Sound, Missing, RestoreAll, DownloadAll;
    match b.mode
    case Http => DownloadAllKeeps(reset, b.wanted, known);
    case Restore => RestoreMissingKeeps(reset, b.wanted, known);
  }

  /**
    A build, whatever file operation fails or is cut short, looks and reads included.
    If it succeeds, every package was staged and recorded by it, or was current and is
    untouched; the latter only if all were current.  Markers stay honest if it succeeds
    or keeps markers.
  */
  lemma AcquireKeeps(d: Disk, b: Build, known: Known)
    requires Sound(d, known) && Proper(b.wanted, known)
    ensures var r := Acquire(d, b);
            && Sound(r.disk, known)
            && (r.ok || KeepsMarkers(d, b) ==> KeepsGood(d, r.disk, known))
            && (r.ok ==> AllAcquired(d, r.disk, b.wanted))
            && (r.ok && !AllCurrent(d, Packages(b.wanted)) ==> AllStaged(r.disk, b.wanted))
  {
    var packages := Packages(b.wanted);
    var reset := ResetIfStale(d, packages, b.native);
    ResetRemoves(d, packages, b.native);
    LosingKeepsGood(d, reset.disk, known);
    NamesOfPackages(b.wanted);
    hide Good, Sound, AllCurrent, ResetIfStale, Proper, Missing, RestoreAll, DownloadAll, AllAcquired, AllStaged,
      Packages, NothingToFetch, ExpectedOf, NamesOf, Loses;
    if reset.ok {
      AcquireBehindReset(d, reset.disk, b, known);
      var r := Acquire(d, b);
      if r.ok {
        if SameFiles(d, reset.disk) {
          SameAcquired(d, reset.disk, r.disk, b.wanted);
        }
        if reset.disk.markers.Keys !! ExpectedOf(b.wanted) {
          UnmarkedIsStaged(reset.disk, r.disk, b.wanted);
          StagedIsAcquired(d, r.disk, b.wanted);
        }
      }
    }
  }

  lemma StagedIsAcquired(d: Disk, after: Disk, wanted: seq<Wanted>)
    requires AllStaged(after, wanted)
    ensures AllAcquired(d, after, wanted)
  {
  }

  lemma {:induction false} NothingToDownload(d: Disk, wanted: seq<Wanted>)
    requires d.outcomes == [] && forall w :: w in wanted ==> d.IsCurrent(w.package)
    ensures DownloadAll(d, wanted) == Result(d, true)
    decreases |wanted|
  {
    if wanted != [] {
      CheckKeeps(d, wanted[0].package);
      hide Check;
      NothingToDownload(d, wanted[1..]);
    }
  }

  lemma {:induction false} NothingMissing(d: Disk, wanted: seq<Wanted>)
    requires d.outcomes == [] && forall w :: w in wanted ==> d.IsCurrent(w.package)
    ensures Missing(d, wanted) == Sieved(d, [])
    decreases |wanted|
  {
    if wanted != [] {
      CheckKeeps(d, wanted[0].package);
      hide Check;
      NothingMissing(d, wanted[1..]);
    }
  }

  /** If nothing fails and everything is current, a build does nothing. */
  lemma CurrentBuildDoesNothing(d: Disk, b: Build)
    requires d.outcomes == [] && AllCurrent(d, Packages(b.wanted))
    ensures Acquire(d, b) == Result(d, true)
  {
    PackagesOf(b.wanted);
    ResetRemoves(d, Packages(b.wanted), b.native);
    NothingToDownload(d, b.wanted);
    NothingMissing(d, b.wanted);
    hide ResetIfStale, Missing, DownloadAll;
  }

  // ---------------------------------------------------------------------
  // What a build stages
  // ---------------------------------------------------------------------

  /** All these files are there, wholly copied from this package. */
  ghost predicate AllCopied(d: Disk, files: seq<string>, package: Package) {
    forall f :: f in files ==> f in d.payload && d.payload[f] == Payload(package.expected, package.version, true)
  }

  ghost predicate OtherFilesKept(a: Disk, b: Disk, files: seq<string>) {
    forall f :: f !in files ==>
      (f in b.payload <==> f in a.payload) && (f in b.payload ==> b.payload[f] == a.payload[f])
  }

  /** Staging that succeeds has copied every file; it never touches any other file or any marker. */
  lemma {:induction false} StageDoes(d: Disk, files: seq<string>, package: Package)
    ensures var r := Stage(d, files, package);
            && r.disk.markers == d.markers && OtherFilesKept(d, r.disk, files)
            && (r.ok ==> AllCopied(r.disk, files, package))
            && (d.outcomes == [] ==> r.ok && r.disk.outcomes == [])
    decreases |files|
  {
    if files != [] {
      assert files == [files[0]] + files[1..];
      var copied := Copy(d, files[0], package);
      var touched := Touch(copied.disk);
      CopyDoes(d, files[0], package);
      StageDoes(touched.disk, files[1..], package);
      OthersKept(d, touched.disk, files[0], files[1..], Stage(touched.disk, files[1..], package).disk);
      OthersKept(d, touched.disk, files[0], files[1..], touched.disk);
      OthersKept(d, copied.disk, files[0], files[1..], copied.disk);
      hide Copy, OtherFilesKept;
      if copied.ok && touched.ok { FirstStaysCopied(touched.disk, files, package); }
    }
  }

  lemma CopyDoes(d: Disk, f: string, package: Package)
    ensures var r := Copy(d, f, package);
            && r.disk.markers == d.markers && OtherFilesKept(d, r.disk, [f])
            && (r.ok ==> f in r.disk.payload
                         && r.disk.payload[f] == Payload(package.expected, package.version, true))
            && (d.outcomes == [] ==> r.ok && r.disk.outcomes == [])
  {
  }

  lemma OthersKept(a: Disk, b: Disk, f: string, rest: seq<string>, c: Disk)
    requires OtherFilesKept(a, b, [f])
    ensures OtherFilesKept(b, c, rest) ==> OtherFilesKept(a, c, [f] + rest)
    ensures c.payload == b.payload ==> OtherFilesKept(a, c, [f] + rest)
  {
  }

  lemma FirstStaysCopied(d: Disk, files: seq<string>, package: Package)
    requires files != [] && files[0] in d.payload
    requires d.payload[files[0]] == Payload(package.expected, package.version, true)
    ensures var r := Stage(d, files[1..], package);
            r.ok ==> files[0] in r.disk.payload && r.disk.payload[files[0]] == d.payload[files[0]]
    decreases |files|
  {
    if |files| > 1 {
      var rest := files[1..];
      var copied := Copy(d, rest[0], package);
      var touched := Touch(copied.disk);
      if copied.ok && touched.ok {
        var later := [files[0]] + rest[1..];
        assert later[1..] == rest[1..];
        FirstStaysCopied(touched.disk, later, package);
      }
    }
  }

  /** The files of the first feed that yields any. */
  ghost predicate FirstYielded(found: seq<Option<seq<string>>>, files: seq<string>) {
    exists i :: 0 <= i < |found| && found[i] == Some(files) && forall k :: 0 <= k < i ==> found[k] == None
  }

  ghost predicate Recorded(d: Disk, after: Disk, files: seq<string>, package: Package) {
    && AllCopied(after, files, package) && OtherFilesKept(d, after, files)
    && after.markers == d.markers[package.expected := package.version]
  }

  lemma StageAndRecordDoes(d: Disk, files: seq<string>, package: Package)
    ensures StageAndRecord(d, files, package).ok ==>
              Recorded(d, StageAndRecord(d, files, package).disk, files, package)
    ensures StageSeeAndRecord(d, files, package).ok ==>
              Recorded(d, StageSeeAndRecord(d, files, package).disk, files, package)
    ensures d.outcomes == [] ==> StageAndRecord(d, files, package).ok
                                 && StageAndRecord(d, files, package).disk.outcomes == []
    ensures d.outcomes == [] && package.expected in files ==>
              StageSeeAndRecord(d, files, package).ok && StageSeeAndRecord(d, files, package).disk.outcomes == []
  {
    StageDoes(d, files, package);
    hide Stage;
  }

  lemma {:induction false} DownloadFromDoes(d: Disk, package: Package, found: seq<Option<seq<string>>>)
    ensures var r := DownloadFrom(d, package, found);
            && (r.ok ==> exists files :: FirstYielded(found, files) && Recorded(d, r.disk, files, package))
            && (d.outcomes == [] ==> r.ok == Yields(found) && r.disk.outcomes == [])
    decreases |found|
  {
    hide Recorded, StageAndRecord;
    if found != [] {
      match found[0]
      case Some(files) =>
        StageAndRecordDoes(d, files, package);
        assert found[0].Some? && FirstYielded(found, files);
      case None =>
        var rest := found[1..];
        DownloadFromDoes(d, package, rest);
        YieldsBehind(found);
        forall files | FirstYielded(rest, files)
          ensures FirstYielded(found, files)
        {
          var i :| 0 <= i < |rest| && rest[i] == Some(files) && forall k :: 0 <= k < i ==> rest[k] == None;
          assert found[i + 1] == rest[i];
          assert forall k :: 0 < k < i + 1 ==> found[k] == rest[k - 1];
        }
    }
  }

  lemma YieldsBehind(found: seq<Option<seq<string>>>)
    requires found != [] && found[0].None?
    ensures Yields(found) == Yields(found[1..])
  {
    if i :| 0 <= i < |found| && found[i].Some? { assert found[1..][i - 1].Some?; }
    if i :| 0 <= i < |found[1..]| && found[1..][i].Some? { assert found[i + 1].Some?; }
  }

  /**
    download_and_extract that succeeds has found the package current and done nothing,
    or has staged all files of the first feed that yields any, and recorded the version.
  */
  lemma DownloadDoes(d: Disk, w: Wanted)
    ensures var r := Download(d, w.package, w.feeds);
            && (r.ok ==> (d.IsCurrent(w.package) && SameFiles(d, r.disk))
                         || exists files :: FirstYielded(w.feeds, files) && Recorded(d, r.disk, files, w.package))
            && (d.outcomes == [] ==> r.ok == (d.IsCurrent(w.package) || Fetches(w)) && r.disk.outcomes == [])
  {
    CheckKeeps(d, w.package);
    var checked := Check(d, w.package);
    DownloadFromDoes(checked.disk, w.package, w.feeds);
    RecordedSame(d, checked.disk, w);
    hide Recorded, DownloadFrom, Check, Trim;
  }

  lemma RecordedSame(d: Disk, a: Disk, w: Wanted)
    requires SameFiles(d, a)
    ensures forall after, files :: Recorded(a, after, files, w.package) ==> Recorded(d, after, files, w.package)
  {
  }

  /** What a restore leaves holds the expected file. */
  predicate Restorable(w: Wanted) { w.restored.Some? && w.package.expected in w.restored.value }

  /** A restored package is staged with all its files, after its own file and marker have gone. */
  lemma StageRestoredDoes(d: Disk, w: Wanted)
    ensures var r := StageRestored(d, w.package, w.restored);
            && (r.ok ==> Restorable(w) && Recorded(d, r.disk, w.restored.value, w.package))
            && (d.outcomes == [] ==> r.ok == Restorable(w) && r.disk.outcomes == [])
  {
    if Restorable(w) {
      var invalidated := Invalidate(d, w.package.expected);
      StageAndRecordDoes(invalidated.disk, w.restored.value, w.package);
      hide StageSeeAndRecord;
    }
  }

  lemma {:induction false} UndisturbedDownloads(d: Disk, wanted: seq<Wanted>, known: Known)
    requires Sound(d, known) && Proper(wanted, known) && d.markers.Keys !! ExpectedOf(wanted) && d.outcomes == []
    ensures DownloadAll(d, wanted).ok <==> forall w :: w in wanted ==> Fetches(w)
    decreases |wanted|
  {
    if wanted != [] {
      ProperTail(wanted, known);
      var w, tail := wanted[0], wanted[1..];
      assert wanted == [w] + tail && w.package.expected in ExpectedOf(wanted);
      DownloadDoes(d, w);
      DownloadKeeps(d, w, known);
      hide Sound, Apart, Proper, ProperWanted, Download, ExpectedOf, Fetches, Recorded, Acquired;
      var first := Download(d, w.package, w.feeds);
      ApartKeepsUnmarked(d, first.disk, w.package.expected, tail, known);
      UndisturbedDownloads(first.disk, tail, known);
    }
  }

  lemma {:induction false} UndisturbedRestores(d: Disk, wanted: seq<Wanted>)
    requires d.outcomes == []
    ensures RestoreAll(d, wanted).ok <==> forall w :: w in wanted ==> Restorable(w)
    decreases |wanted|
  {
    if wanted != [] {
      assert wanted == [wanted[0]] + wanted[1..];
      StageRestoredDoes(d, wanted[0]);
      hide StageRestored, Restorable, Recorded;
      UndisturbedRestores(StageRestored(d, wanted[0].package, wanted[0].restored).disk, wanted[1..]);
    }
  }

  lemma {:induction false} UndisturbedRemoval(d: Disk, native: seq<string>)
    requires d.outcomes == []
    ensures RemoveFiles(d, native).ok && RemoveFiles(d, native).disk.outcomes == []
    decreases |native|
  {
    if native != [] {
      if native[0] in d.payload {
        UndisturbedRemoval(RemovePayload(Touch(d).disk, native[0]).disk, native[1..]);
      } else {
        UndisturbedRemoval(d, native[1..]);
      }
    }
  }

  lemma {:induction false} UndisturbedForgetting(d: Disk, packages: seq<Package>)
    requires d.outcomes == []
    ensures RemoveMarkers(d, packages).ok && RemoveMarkers(d, packages).disk.outcomes == []
    decreases |packages|
  {
    if packages != [] { UndisturbedForgetting(RemoveMarker(d, packages[0].expected).disk, packages[1..]); }
  }

  lemma UndisturbedReset(d: Disk, packages: seq<Package>, native: seq<string>)
    requires d.outcomes == [] && !AllCurrent(d, packages)
    ensures var r := ResetIfStale(d, packages, native);
            r.ok && r.disk.outcomes == [] && r.disk.markers == d.markers - NamesOf(packages)
  {
    CheckAllKeeps(d, packages);
    UndisturbedRemoval(d, native);
    UndisturbedForgetting(RemoveFiles(d, native).disk, packages);
    RemoveFilesRemoves(d, native);
    RemoveMarkersRemoves(RemoveFiles(d, native).disk, packages);
    hide AllCurrent, CheckAll, RemoveFiles, RemoveMarkers;
  }

  lemma {:induction false} AllStaleAreMissing(d: Disk, wanted: seq<Wanted>)
    requires d.outcomes == [] && d.markers.Keys !! ExpectedOf(wanted)
    ensures Missing(d, wanted) == Sieved(d, wanted)
    decreases |wanted|
  {
    if wanted != [] {
      assert wanted == [wanted[0]] + wanted[1..] && wanted[0].package.expected in ExpectedOf(wanted);
      CheckKeeps(d, wanted[0].package);
      hide Check;
      AllStaleAreMissing(d, wanted[1..]);
    }
  }

  /** The mode can get the package. */
  ghost predicate Obtainable(b: Build, w: Wanted) { if b.mode == Http then Fetches(w) else Restorable(w) }

  /** If no file operation fails, a build succeeds exactly if all is current or every package can be had. */
  lemma UndisturbedBuildSucceedsExactlyWhen(d: Disk, b: Build, known: Known)
    requires Sound(d, known) && Proper(b.wanted, known) && d.outcomes == []
    ensures Acquire(d, b).ok <==>
            AllCurrent(d, Packages(b.wanted)) || forall w :: w in b.wanted ==> Obtainable(b, w)
  {
    var packages := Packages(b.wanted);
    if AllCurrent(d, packages) {
      CurrentBuildDoesNothing(d, b);
    } else {
      UndisturbedReset(d, packages, b.native);
      ResetRemoves(d, packages, b.native);
      var reset := ResetIfStale(d, packages, b.native).disk;
      LosingKeepsGood(d, reset, known);
      NamesOfPackages(b.wanted);
      hide Sound, Good, Proper, ExpectedOf, NamesOf, Fetches, Restorable, ResetIfStale, DownloadAll, RestoreAll,
        Missing, Loses, Packages, AllCurrent;
      AllStaleAreMissing(reset, b.wanted);
      match b.mode
      case Http => UndisturbedDownloads(reset, b.wanted, known);
      case Restore => UndisturbedRestores(reset, b.wanted);
    }
  }

  // ---------------------------------------------------------------------
  // How an HTTP build breaks its markers
  // ---------------------------------------------------------------------

  /** The file is cut short, and its marker stands. */
  ghost predicate Deceptive(d: Disk, e: string) { e in d.markers && e in d.payload && !d.payload[e].whole }

  lemma {:induction false} TearStage(d: Disk, files: seq<string>, package: Package) returns (outcomes: seq<Outcome>)
    requires package.expected in files && package.expected in d.markers
    ensures var r := Stage(d.(outcomes := outcomes), files, package);
            !r.ok && r.disk.outcomes == [] && r.disk.markers == d.markers && Deceptive(r.disk, package.expected)
    decreases |files|
  {
    if files[0] == package.expected {
      outcomes := [Torn(0)];
    } else {
      var copied := d.(payload := d.payload[files[0] := Payload(package.expected, package.version, true)]);
      assert files == [files[0]] + files[1..];
      var rest := TearStage(copied, files[1..], package);
      outcomes := [Success, Success] + rest;
      assert outcomes[1..][1..] == rest;
    }
  }

  lemma {:induction false} TearDownloadFrom(d: Disk, package: Package, found: seq<Option<seq<string>>>)
    returns (outcomes: seq<Outcome>)
    requires Yields(found) && package.expected in d.markers
    requires forall i :: 0 <= i < |found| && found[i].Some? ==> package.expected in found[i].value
    ensures var r := DownloadFrom(d.(outcomes := outcomes), package, found);
            !r.ok && r.disk.outcomes == [] && r.disk.markers == d.markers && Deceptive(r.disk, package.expected)
    decreases |found|
  {
    match found[0]
    case Some(files) =>
      hide Stage;
      outcomes := TearStage(d, files, package);
    case None =>
      var i :| 0 <= i < |found| && found[i].Some?;
      assert found[1..][i - 1].Some?;
      outcomes := TearDownloadFrom(d, package, found[1..]);
  }

  /** The marker cannot be read, and the copy is cut short. */
  lemma TearDownload(d: Disk, w: Wanted, known: Known) returns (outcomes: seq<Outcome>)
    requires ProperWanted(w, known) && Fetches(w) && w.package.expected in d.markers
    ensures var r := Download(d.(outcomes := outcomes), w.package, w.feeds);
            !r.ok && r.disk.outcomes == [] && r.disk.markers == d.markers && Deceptive(r.disk, w.package.expected)
  {
    hide Trim, DownloadFrom;
    var rest := TearDownloadFrom(d, w.package, w.feeds);
    outcomes := [Failure] + rest;
    assert outcomes[1..] == rest;
    assert Check(d.(outcomes := outcomes), w.package) == Result(d.(outcomes := rest), false);
  }

  lemma CheckPasses(d: Disk, package: Package, rest: seq<Outcome>)
    requires d.IsCurrent(package)
    ensures Check(d.(outcomes := [Success, Success] + rest), package) == Result(d.(outcomes := rest), true)
  {
    assert ([Success, Success] + rest)[1..][1..] == rest;
  }

  lemma StaysCurrent(d: Disk, after: Disk, e: string, wanted: seq<Wanted>, known: Known)
    requires Apart(d, after, {e}, known) && Proper(wanted, known) && e !in ExpectedOf(wanted)
    requires forall w :: w in wanted ==> d.IsCurrent(w.package)
    ensures forall w :: w in wanted ==> after.IsCurrent(w.package)
  {
    forall w | w in wanted
      ensures after.IsCurrent(w.package)
    {
      NameIsKnown(wanted, w, known);
      assert w.package.expected in ExpectedOf(wanted);
      assert Untouched(d, after, w.package.expected);
    }
  }

  lemma {:induction false} TearAll(d: Disk, wanted: seq<Wanted>, known: Known)
    returns (outcomes: seq<Outcome>, e: string)
    requires Sound(d, known) && Proper(wanted, known) && !NothingToFetch(wanted)
    requires forall w :: w in wanted ==> d.IsCurrent(w.package)
    ensures Deceptive(DownloadAll(d.(outcomes := outcomes), wanted).disk, e)
    decreases |wanted|
  {
    ProperTail(wanted, known);
    var w, tail := wanted[0], wanted[1..];
    assert wanted == [w] + tail;
    e := w.package.expected;
    hide Sound, Proper, ProperWanted, Download, Apart, ExpectedOf, Fetches;
    if Fetches(w) {
      outcomes := TearDownload(d, w, known);
      var start := d.(outcomes := outcomes);
      SameKeepsGood(d, start, known);
      DownloadKeeps(start, w, known);
      var first := Download(start, w.package, w.feeds);
      StaysCurrent(start, first.disk, e, tail, known);
      NothingToDownload(first.disk, tail);
    } else {
      var rest;
      rest, e := TearAll(d, tail, known);
      outcomes := [Success, Success] + rest;
      CheckPasses(d, w.package, rest);
      DownloadPasses(d.(outcomes := outcomes), w);
    }
  }

  lemma DownloadPasses(d: Disk, w: Wanted)
    requires Check(d, w.package).ok
    ensures Download(d, w.package, w.feeds) == Check(d, w.package)
  {
  }

  lemma {:induction false} AllPass(d: Disk, packages: seq<Package>, rest: seq<Outcome>)
    returns (outcomes: seq<Outcome>)
    requires AllCurrent(d, packages)
    ensures CheckAll(d.(outcomes := outcomes), packages) == Result(d.(outcomes := rest), true)
    decreases |packages|
  {
    if packages == [] {
      outcomes := rest;
    } else {
      assert packages == [packages[0]] + packages[1..];
      var later := AllPass(d, packages[1..], rest);
      outcomes := [Success, Success] + later;
      CheckPasses(d, packages[0], later);
    }
  }

  /** The outcomes of the file operations with which an HTTP build leaves a marker beside a torn file. */
  lemma BreaksMarkers(d: Disk, b: Build, known: Known) returns (outcomes: seq<Outcome>)
    requires Sound(d, known) && Proper(b.wanted, known) && !KeepsMarkers(d, b)
    ensures !Honest(Acquire(d.(outcomes := outcomes), b).disk)
  {
    hide Sound, Proper, DownloadAll, CheckAll;
    PackagesOf(b.wanted);
    var rest, e := TearAll(d, b.wanted, known);
    outcomes := AllPass(d, Packages(b.wanted), rest);
    var r := Acquire(d.(outcomes := outcomes), b);
    assert r == DownloadAll(d.(outcomes := rest), b.wanted);
    assert !Backed(e, r.disk.payload[e], r.disk.markers[e]);
  }

  ghost predicate GoodAfter(d: Disk, outcomes: seq<Outcome>, b: Build, known: Known) {
    Good(Acquire(d.(outcomes := outcomes), b).disk, known)
  }

  /**
    From a good directory, a build keeps markers honest under every outcome of its file
    operations exactly if it restores, finds something stale, or has nothing to fetch.
  */
  lemma MarkersStayHonestExactlyWhen(d: Disk, b: Build, known: Known)
    requires Good(d, known) && Proper(b.wanted, known)
    ensures (forall outcomes :: GoodAfter(d, outcomes, b, known)) <==> KeepsMarkers(d, b)
  {
    if KeepsMarkers(d, b) {
      forall outcomes
        ensures GoodAfter(d, outcomes, b, known)
      {
        var start := d.(outcomes := outcomes);
        SameKeepsGood(d, start, known);
        SameKeepsMarkers(d, start, b);
        hide Sound, Honest, Acquire, KeepsMarkers;
        AcquireKeeps(start, b, known);
      }
    } else {
      hide Acquire, KeepsMarkers;
      var outcomes := BreaksMarkers(d, b, known);
      assert !GoodAfter(d, outcomes, b, known);
    }
  }

  lemma SameKeepsMarkers(d: Disk, a: Disk, b: Build)
    requires SameFiles(d, a)
    ensures KeepsMarkers(d, b) == KeepsMarkers(a, b)
  {
    assert forall p :: p in Packages(b.wanted) ==> d.IsCurrent(p) == a.IsCurrent(p);
  }

  // ---------------------------------------------------------------------
  // Runs of builds
  // ---------------------------------------------------------------------

  ghost predicate ProperBuilds(builds: seq<Build>, known: Known) {
    forall i :: 0 <= i < |builds| ==> Proper(builds[i].wanted, known)
  }

  /** Every build keeps markers where it starts, or succeeds. */
  ghost predicate Guarded(d: Disk, builds: seq<Build>)
    decreases |builds|
  {
    builds == [] ||
    ((KeepsMarkers(d, builds[0]) || Acquire(d, builds[0]).ok) && Guarded(Acquire(d, builds[0]).disk, builds[1..]))
  }

  lemma {:induction false} AfterBuildsKeep(d: Disk, builds: seq<Build>, known: Known)
    requires Sound(d, known) && ProperBuilds(builds, known)
    ensures Sound(AfterBuilds(d, builds), known)
    ensures Guarded(d, builds) ==> KeepsGood(d, AfterBuilds(d, builds), known)
    decreases |builds|
  {
    if builds != [] {
      assert Proper(builds[0].wanted, known);
      hide Good, Sound, Proper, Acquire, KeepsMarkers;
      AcquireKeeps(d, builds[0], known);
      AfterBuildsKeep(Acquire(d, builds[0]).disk, builds[1..], known);
    }
  }

  lemma EmptyIsGood(outcomes: seq<Outcome>, known: Known)
    ensures Good(EmptyDisk(outcomes), known)
  {
  }

  /** If the directory calls the package current, the whole file of that version is there. */
  ghost predicate Reliable(d: Disk, package: Package) {
    d.IsCurrent(package) ==> d.payload[package.expected] == Payload(package.expected, package.version, true)
  }

  /** After these builds in an empty directory, with these outcomes of their file operations. */
  ghost predicate ReliableAfter(outcomes: seq<Outcome>, builds: seq<Build>, package: Package, known: Known) {
    ProperBuilds(builds, known) ==> Reliable(AfterBuilds(EmptyDisk(outcomes), builds), package)
  }

  ghost predicate ReliableIfGuarded(outcomes: seq<Outcome>, builds: seq<Build>, package: Package, known: Known) {
    Guarded(EmptyDisk(outcomes), builds) ==> ReliableAfter(outcomes, builds, package, known)
  }

  lemma GuardedIsReliable(outcomes: seq<Outcome>, builds: seq<Build>, package: Package, known: Known)
    requires Unambiguous(package.version, known.versions)
    ensures ReliableIfGuarded(outcomes, builds, package, known)
  {
    var d := AfterBuilds(EmptyDisk(outcomes), builds);
    if Guarded(EmptyDisk(outcomes), builds) && ProperBuilds(builds, known) && d.IsCurrent(package) {
      EmptyIsGood(outcomes, known);
      AfterBuildsKeep(EmptyDisk(outcomes), builds, known);
      CurrentIsStaged(d, package, known);
    }
  }

  // ---------------------------------------------------------------------
  // Runs that mislead
  // ---------------------------------------------------------------------

  function Successes(n: nat, last: seq<Outcome>): seq<Outcome> {
    if n == 0 then last else [Success] + Successes(n - 1, last)
  }

  lemma NextSucceeds(n: nat, last: seq<Outcome>)
    requires n > 0
    ensures Successes(n, last)[0] == Success && Successes(n, last)[1..] == Successes(n - 1, last)
  {
  }

  /** A restore of one package that ships its expected file only. */
  function LoneRestore(package: Package): Build {
    Build(Restore, [Wanted(package, [], Some([package.expected]))], [])
  }

  /** The same package over HTTP, from one feed. */
  function LoneDownload(package: Package): Build {
    Build(Http, [Wanted(package, [Some([package.expected])], None)], [])
  }

  function OneFile(e: string, v: string, whole: bool): map<string, Payload> { map[e := Payload(e, v, whole)] }

  /** The package's file, finished or not, and its marker. */
  function LoneDisk(package: Package, whole: bool, outcomes: seq<Outcome>): Disk {
    Disk(OneFile(package.expected, package.version, whole), map[package.expected := package.version], outcomes)
  }

  lemma LoneReset(package: Package, last: seq<Outcome>)
    ensures ResetIfStale(EmptyDisk(Successes(9, last)), [package], []) == Result(EmptyDisk(Successes(6, last)), true)
  {
    var d := EmptyDisk(Successes(9, last));
    NextSucceeds(9, last);
    NextSucceeds(8, last);
    NextSucceeds(7, last);
    hide Successes;
    assert CheckAll(d, [package]) == Result(EmptyDisk(Successes(8, last)), false);
    var listed := EmptyDisk(Successes(7, last));
    assert RemoveMarkers(listed, [package]) == RemoveMarkers(RemoveMarker(listed, package.expected).disk, []);
  }

  lemma LoneStage(package: Package, last: seq<Outcome>)
    ensures StageRestored(EmptyDisk(Successes(5, last)), package, Some([package.expected]))
         == Record(Disk(OneFile(package.expected, package.version, true), map[], last), package)
  {
    var e, v := package.expected, package.version;
    NextSucceeds(5, last);
    NextSucceeds(4, last);
    NextSucceeds(3, last);
    NextSucceeds(2, last);
    NextSucceeds(1, last);
    hide Record;
    var cleared := EmptyDisk(Successes(3, last));
    assert Invalidate(EmptyDisk(Successes(5, last)), e) == Result(cleared, true);
    var staged := Disk(OneFile(e, v, true), map[], Successes(1, last));
    assert Copy(cleared, e, package).disk == Disk(OneFile(e, v, true), map[], Successes(2, last));
    assert Stage(cleared, [e], package) == Stage(staged, [e][1..], package) == Result(staged, true);
  }

  /** Everything before the marker goes well. */
  lemma LoneRestoreUpToMarker(package: Package, last: seq<Outcome>)
    ensures Acquire(EmptyDisk(Successes(9, last)), LoneRestore(package))
         == Record(Disk(OneFile(package.expected, package.version, true), map[], last), package)
  {
    var b := LoneRestore(package);
    var e := package.expected;
    var w, reset := b.wanted[0], EmptyDisk(Successes(6, last));
    assert Packages(b.wanted) == [package];
    LoneReset(package, last);
    LoneStage(package, last);
    NextSucceeds(6, last);
    hide Record, ResetIfStale, StageRestored, Successes;
    var seen := EmptyDisk(Successes(5, last));
    assert Check(reset, package) == Result(seen, false);
    assert b.wanted[1..] == [] && Missing(reset, b.wanted) == Sieved(seen, [w]) by {
      assert Missing(seen, []) == Sieved(seen, []);
    }
    assert RestoreAll(seen, [w]) == StageRestored(seen, package, Some([e])) by {
      assert [w][1..] == [];
    }
  }

  lemma LoneBuildsAreProper(package: Package, known: Known)
    requires Configured(package, known)
    ensures Proper(LoneRestore(package).wanted, known) && Proper(LoneDownload(package).wanted, known)
  {
  }

  /**
    From an empty directory: a restore of 1.20 whose marker write is torn after "1.2"
    fails, and a later build that wants 1.2 succeeds without doing anything.
  */
  lemma TornMarkerMisleads(e: string, b: Build)
    requires Packages(b.wanted) == [Package(e, "1.2")]
    ensures var first := Acquire(EmptyDisk(Successes(9, [Torn(3)])), LoneRestore(Package(e, "1.20")));
            && !first.ok && Acquire(first.disk, b) == Result(first.disk, true)
            && first.disk.payload == OneFile(e, "1.20", true)
  {
    LoneRestoreUpToMarker(Package(e, "1.20"), [Torn(3)]);
    assert "1.20"[..3] == "1.2";
    assert TrimStart("1.2") == "1.2" && TrimEnd("1.2") == "1.2";
    hide Acquire, Successes;
    var d := Acquire(EmptyDisk(Successes(9, [Torn(3)])), LoneRestore(Package(e, "1.20"))).disk;
    assert d == Disk(OneFile(e, "1.20", true), map[e := "1.2"], []);
    CurrentBuildDoesNothing(d, b);
  }

  /** Over HTTP the reset reads the marker, the download does not, and the copy is cut short. */
  lemma LoneDownloadTorn(package: Package)
    requires Trim(package.version) == package.version && package.version != ""
    ensures Acquire(LoneDisk(package, true, [Success, Success, Failure, Torn(0)]), LoneDownload(package))
         == Result(LoneDisk(package, false, []), false)
  {
    hide Trim;
    var e, v, b := package.expected, package.version, LoneDownload(package);
    var d, rest := Disk(OneFile(e, v, true), map[e := v], []), [Failure, Torn(0)];
    assert Packages(b.wanted) == [package] && [package][1..] == [];
    assert [Success, Success] + rest == [Success, Success, Failure, Torn(0)];
    CheckPasses(d, package, rest);
    var start := d.(outcomes := [Success, Success] + rest);
    assert CheckAll(start, [package]) == Result(d.(outcomes := rest), true);
    var w := b.wanted[0];
    assert b.wanted[1..] == [] && rest[1..] == [Torn(0)];
    assert Check(d.(outcomes := rest), package) == Result(d.(outcomes := [Torn(0)]), false);
    var torn := Disk(OneFile(e, v, false), map[e := v], []);
    assert d.payload[e := Payload(e, v, false)] == torn.payload;
    assert Stage(d.(outcomes := [Torn(0)]), [e], package) == Result(torn, false);
    assert DownloadFrom(d.(outcomes := [Torn(0)]), package, w.feeds) == Result(torn, false);
    assert DownloadAll(torn, []) == Result(torn, true);
  }

  function UnreadMarker(): seq<Outcome> { Successes(9, [Success] + [Success, Success, Failure, Torn(0)]) }

  lemma UnreadMarkerRun(package: Package)
    requires Trim(package.version) == package.version && package.version != ""
    ensures Acquire(EmptyDisk(UnreadMarker()), LoneRestore(package)).ok
    ensures AfterBuilds(EmptyDisk(UnreadMarker()), [LoneRestore(package), LoneDownload(package)])
         == LoneDisk(package, false, [])
  {
    hide Trim, Acquire, Successes;
    var e, v, later := package.expected, package.version, [Success, Success, Failure, Torn(0)];
    LoneRestoreUpToMarker(package, [Success] + later);
    var restored := Disk(OneFile(e, v, true), map[e := v], later);
    assert ([Success] + later)[1..] == later;
    assert Acquire(EmptyDisk(UnreadMarker()), LoneRestore(package)) == Result(restored, true);
    LoneDownloadTorn(package);
    var builds := [LoneRestore(package), LoneDownload(package)];
    assert builds[1..] == [LoneDownload(package)] && builds[1..][1..] == [];
    var torn := Disk(OneFile(e, v, false), map[e := v], []);
    assert AfterBuilds(restored, builds[1..]) == AfterBuilds(torn, []) == torn;
  }

  /**
    From an empty directory: a restore succeeds; an HTTP build of the same version, whose
    second check cannot look at the file and whose copy is cut short, fails; and any later
    build of that version succeeds without doing anything, over the torn file.
  */
  lemma UnreadMarkerMisleads(package: Package, b: Build)
    requires Trim(package.version) == package.version && package.version != "" && Packages(b.wanted) == [package]
    ensures var d := AfterBuilds(EmptyDisk(UnreadMarker()), [LoneRestore(package), LoneDownload(package)]);
            Acquire(d, b) == Result(d, true) && d.payload == OneFile(package.expected, package.version, false)
  {
    hide Trim, Acquire, AfterBuilds, UnreadMarker;
    UnreadMarkerRun(package);
    var d := AfterBuilds(EmptyDisk(UnreadMarker()), [LoneRestore(package), LoneDownload(package)]);
    CurrentBuildDoesNothing(d, b);
  }

  /**
    Over the guarded runs of builds from an empty directory: being current means that
    the whole file of that version is there, exactly if no other configured version has
    a beginning that reads like it.
  */
  lemma GuardedMarkersAreReliableExactlyWhen(package: Package, known: Known)
    requires package.expected in known.names
    ensures Unambiguous(package.version, known.versions) <==>
            forall outcomes, builds :: ReliableIfGuarded(outcomes, builds, package, known)
  {
    if Unambiguous(package.version, known.versions) {
      forall outcomes, builds
        ensures ReliableIfGuarded(outcomes, builds, package, known)
      {
        GuardedIsReliable(outcomes, builds, package, known);
      }
    } else {
      var outcomes, builds := AmbiguousMisleads(package, known);
      assert !ReliableIfGuarded(outcomes, builds, package, known);
    }
  }

  lemma AmbiguousMisleads(package: Package, known: Known) returns (outcomes: seq<Outcome>, builds: seq<Build>)
    requires package.expected in known.names && !Unambiguous(package.version, known.versions)
    ensures Guarded(EmptyDisk(outcomes), builds) && !ReliableAfter(outcomes, builds, package, known)
  {
    hide Trim, Acquire, Successes;
    var e := package.expected;
    var v, n :| v in known.versions && 0 <= n <= |v| && Trim(v[..n]) == package.version && v != package.version;
    var other := Package(e, v);
    outcomes, builds := Successes(9, [Torn(n)]), [LoneRestore(other)];
    LoneRestoreUpToMarker(other, [Torn(n)]);
    LoneBuildsAreProper(other, known);
    hide Proper;
    var d := Acquire(EmptyDisk(outcomes), builds[0]).disk;
    assert d == Disk(OneFile(e, v, true), map[e := v[..n]], []);
    assert builds[1..] == [];
    assert AfterBuilds(EmptyDisk(outcomes), builds) == AfterBuilds(d, builds[1..]) == d;
  }

  /** A configured version as markers can hold it, and that can be fetched. */
  predicate Usable(version: string, versions: set<string>) {
    version in versions && Trim(version) == version && version != ""
  }

  lemma {:induction false} TrimStartShortens(s: string)
    ensures |TrimStart(s)| <= |s|
    decreases |s|
  {
    if s != [] { TrimStartShortens(s[1..]); }
  }

  lemma {:induction false} TrimEndShortens(s: string)
    ensures |TrimEnd(s)| <= |s|
    decreases |s|
  {
    if s != [] { TrimEndShortens(s[..|s| - 1]); }
  }

  /** Only a version that markers can hold ever becomes current. */
  lemma CurrentIsConfigured(d: Disk, package: Package, known: Known)
    requires Sound(d, known) && Unambiguous(package.version, known.versions) && d.IsCurrent(package)
    ensures package.version in known.versions && Trim(package.version) == package.version
  {
    var m := d.markers[package.expected];
    var v :| v in known.versions && m <= v;
    assert v[..|m|] == m;
    TrimStartShortens(m);
    TrimEndShortens(TrimStart(m));
    hide TrimStart, TrimEnd;
    assert |m| == |v|;
    assert m == v;
  }

  /** Without a version that can be fetched, every run is guarded. */
  lemma {:induction false} BlankIsGuarded(d: Disk, builds: seq<Build>, known: Known)
    requires ProperBuilds(builds, known) && forall v :: v in known.versions ==> v == ""
    ensures Guarded(d, builds)
    decreases |builds|
  {
    if builds != [] {
      var b := builds[0];
      forall w | w in b.wanted
        ensures !Fetches(w)
      {
        NameIsKnown(b.wanted, w, known);
      }
      hide Acquire, Proper;
      BlankIsGuarded(Acquire(d, b).disk, builds[1..], known);
    }
  }

  lemma UnusableIsReliable(outcomes: seq<Outcome>, builds: seq<Build>, package: Package, known: Known)
    requires Unambiguous(package.version, known.versions) && !Usable(package.version, known.versions)
    ensures ReliableAfter(outcomes, builds, package, known)
  {
    var start := EmptyDisk(outcomes);
    var d := AfterBuilds(start, builds);
    if ProperBuilds(builds, known) && d.IsCurrent(package) {
      EmptyIsGood(outcomes, known);
      AfterBuildsKeep(start, builds, known);
      CurrentIsConfigured(d, package, known);
      forall v | v in known.versions
        ensures v == ""
      {
        assert v[..0] == "" && Trim("") == "";
      }
      BlankIsGuarded(start, builds, known);
      GuardedIsReliable(outcomes, builds, package, known);
    }
  }

  /**
    Over all runs of builds from an empty directory, HTTP builds that fail over current
    packages included: exactly if besides nobody can ever fetch this version.
  */
  lemma MarkersAreReliableExactlyWhen(package: Package, known: Known)
    requires package.expected in known.names
    ensures Unambiguous(package.version, known.versions) && !Usable(package.version, known.versions) <==>
            forall outcomes, builds :: ReliableAfter(outcomes, builds, package, known)
  {
    if !Unambiguous(package.version, known.versions) {
      var outcomes, builds := AmbiguousMisleads(package, known);
      assert !ReliableAfter(outcomes, builds, package, known);
    } else if Usable(package.version, known.versions) {
      UnreadMarkerRun(package);
      LoneBuildsAreProper(package, known);
      hide AfterBuilds, UnreadMarker, Proper, LoneRestore, LoneDownload;
      assert !ReliableAfter(UnreadMarker(), [LoneRestore(package), LoneDownload(package)], package, known);
    } else {
      forall outcomes, builds
        ensures ReliableAfter(outcomes, builds, package, known)
      {
        UnusableIsReliable(outcomes, builds, package, known);
      }
    }
  }
}
