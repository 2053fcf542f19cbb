/**
  The native-package cache of the build script and its version markers
  (sdk_v2/rust/build_support.rs:212-304, sdk_v2/rust/build.rs:244-297, 323-461,
  562-606, sdk_v2/rust/http_extract.rs:74-84).

  The output directory is two maps: native files, with the package version that each
  was copied from, and version markers by expected file.  A script says how each file
  operation ends: well, with nothing done, or with part of the file written.
*/
module VersionMarkers {
  import UrlRedaction

  datatype Option<+T> = None | Some(value: T)

  datatype Package = Package(expected: string, version: string)

  /** A native file: whose package it came from, in which version, and whether the copy was finished. */
  datatype Payload = Payload(source: string, version: string, whole: bool)

  // ---------------------------------------------------------------------
  // Trimmed versions
  // ---------------------------------------------------------------------

  function TrimStart(s: string): string {
    if s != [] && UrlRedaction.IsWhitespace(s[0]) then TrimStart(s[1..]) else s
  }

  function TrimEnd(s: string): string {
    if s != [] && UrlRedaction.IsWhitespace(s[|s| - 1]) then TrimEnd(s[..|s| - 1]) else s
  }

  /** str::trim */
  function Trim(s: string): string { TrimEnd(TrimStart(s)) }

  /** What package_is_current finds if it can look at the file and read the marker. */
  predicate Current(payload: map<string, Payload>, markers: map<string, string>, e: string, version: string) {
    e in payload && e in markers && Trim(markers[e]) == version
  }

  // ---------------------------------------------------------------------
  // File operations
  // ---------------------------------------------------------------------

  /** How a file operation ends; a torn one leaves this much of its file. */
  datatype Outcome = Success | Failure | Torn(length: nat)

  /** The output directory, and the outcomes of the operations to come; behind them all succeed. */
  datatype Disk = Disk(payload: map<string, Payload>, markers: map<string, string>, outcomes: seq<Outcome>)
  {
    function Next(): Outcome { if outcomes == [] then Success else outcomes[0] }

    function Later(): Disk { if outcomes == [] then this else this.(outcomes := outcomes[1..]) }

    predicate IsCurrent(package: Package) { Current(payload, markers, package.expected, package.version) }
  }

  function EmptyDisk(outcomes: seq<Outcome>): Disk { Disk(map[], map[], outcomes) }

  /** The directory behind an operation, and whether it went well. */
  datatype Result = Result(disk: Disk, ok: bool)

  /** An operation that writes nothing: reading the directory, making a file executable. */
  function Touch(d: Disk): Result { Result(d.Later(), d.Next() == Success) }

  function RemovePayload(d: Disk, f: string): Result {
    var r := d.Later();
    if d.Next() == Success then Result(r.(payload := r.payload - {f}), true) else Result(r, false)
  }

  function RemoveMarker(d: Disk, e: string): Result {
    var r := d.Later();
    if d.Next() == Success then Result(r.(markers := r.markers - {e}), true) else Result(r, false)
  }

  /** fs::copy into the directory. */
  function Copy(d: Disk, f: string, package: Package): Result {
    var r := d.Later();
    match d.Next()
    case Success => Result(r.(payload := r.payload[f := Payload(package.expected, package.version, true)]), true)
    case Failure => Result(r, false)
    case Torn(_) => Result(r.(payload := r.payload[f := Payload(package.expected, package.version, false)]), false)
  }

  /** record_package_version, with fs::write. */
  function Record(d: Disk, package: Package): Result {
    var r, v := d.Later(), package.version;
    match d.Next()
    case Success => Result(r.(markers := r.markers[package.expected := v]), true)
    case Failure => Result(r, false)
    case Torn(n) => Result(r.(markers := r.markers[package.expected := v[..if n <= |v| then n else |v|]]), false)
  }

  /** package_is_current: a file that cannot be looked at, or a marker that cannot be read, is not current. */
  function Check(d: Disk, package: Package): Result {
    var looked := Touch(d);
    if !looked.ok || package.expected !in d.payload then Result(looked.disk, false)
    else
      var read := Touch(looked.disk);
      Result(read.disk, read.ok && d.IsCurrent(package))
  }

  // ---------------------------------------------------------------------
  // Builds
  // ---------------------------------------------------------------------

  /** stage_files */
  function Stage(d: Disk, files: seq<string>, package: Package): Result
    decreases |files|
  {
    if files == [] then Result(d, true)
    else
      var copied := Copy(d, files[0], package);
      if !copied.ok then copied
      else
        var touched := Touch(copied.disk);
        if !touched.ok then touched else Stage(touched.disk, files[1..], package)
  }

  function StageAndRecord(d: Disk, files: seq<string>, package: Package): Result {
    var staged := Stage(d, files, package);
    if staged.ok then Record(staged.disk, package) else staged
  }

  /** What the feeds yield, in turn. */
  function DownloadFrom(d: Disk, package: Package, found: seq<Option<seq<string>>>): Result {
    if found == [] then Result(d, false)
    else match found[0]
      case Some(files) => StageAndRecord(d, files, package)
      case None => DownloadFrom(d, package, found[1..])
  }

  /** download_and_extract */
  function Download(d: Disk, package: Package, found: seq<Option<seq<string>>>): Result {
    var checked := Check(d, package);
    if checked.ok then checked
    else if Trim(package.version) == "" then checked
    else DownloadFrom(checked.disk, package, found)
  }

  /** invalidate_package */
  function Invalidate(d: Disk, e: string): Result {
    var removed := RemovePayload(d, e);
    if removed.ok then RemoveMarker(removed.disk, e) else removed
  }

  /** Staging, a look whether the expected file has arrived, and recording. */
  function StageSeeAndRecord(d: Disk, files: seq<string>, package: Package): Result {
    var staged := Stage(d, files, package);
    if !staged.ok then staged
    else
      var seen := Touch(staged.disk);
      if seen.ok && package.expected in seen.disk.payload then Record(seen.disk, package)
      else Result(seen.disk, false)
  }

  /** stage_restored_package */
  function StageRestored(d: Disk, package: Package, found: Option<seq<string>>): Result {
    if found.None? || found.value == [] || package.expected !in found.value then Result(d, false)
    else
      var invalidated := Invalidate(d, package.expected);
      if invalidated.ok then StageSeeAndRecord(invalidated.disk, found.value, package) else invalidated
  }

  /** Remove those native files that are there. */
  function RemoveFiles(d: Disk, native: seq<string>): Result
    decreases |native|
  {
    if native == [] then Result(d, true)
    else if native[0] in d.payload then
      var listed := Touch(d);
      if !listed.ok then listed
      else
        var removed := RemovePayload(listed.disk, native[0]);
        if removed.ok then RemoveFiles(removed.disk, native[1..]) else removed
    else RemoveFiles(d, native[1..])
  }

  function RemoveMarkers(d: Disk, packages: seq<Package>): Result
    decreases |packages|
  {
    if packages == [] then Result(d, true)
    else
      var removed := RemoveMarker(d, packages[0].expected);
      if removed.ok then RemoveMarkers(removed.disk, packages[1..]) else removed
  }

  predicate AllCurrent(d: Disk, packages: seq<Package>) { forall p | p in packages :: d.IsCurrent(p) }

  /** The checks of a reset, up to the first that fails. */
  function CheckAll(d: Disk, packages: seq<Package>): Result
    decreases |packages|
  {
    if packages == [] then Result(d, true)
    else
      var checked := Check(d, packages[0]);
      if checked.ok then CheckAll(checked.disk, packages[1..]) else checked
  }

  /** reset_native_cache_if_stale */
  function ResetIfStale(d: Disk, packages: seq<Package>, native: seq<string>): Result {
    var checked := CheckAll(d, packages);
    if checked.ok then checked
    else
      var listed := Touch(checked.disk);
      if !listed.ok then listed
      else
        var removed := RemoveFiles(listed.disk, native);
        if removed.ok then RemoveMarkers(removed.disk, packages) else removed
  }

  /** A package to acquire: what the feeds yield, and what a restore leaves. */
  datatype Wanted = Wanted(package: Package, feeds: seq<Option<seq<string>>>, restored: Option<seq<string>>)

  function Packages(wanted: seq<Wanted>): (p: seq<Package>)
    ensures |p| == |wanted| && forall i :: 0 <= i < |p| ==> p[i] == wanted[i].package
  {
    seq(|wanted|, i requires 0 <= i < |wanted| => wanted[i].package)
  }

  /** The HTTP loop: it goes on after a package that failed. */
  function DownloadAll(d: Disk, wanted: seq<Wanted>): Result
    decreases |wanted|
  {
    if wanted == [] then Result(d, true)
    else
      var first := Download(d, wanted[0].package, wanted[0].feeds);
      var others := DownloadAll(first.disk, wanted[1..]);
      Result(others.disk, first.ok && others.ok)
  }

  datatype Sieved = Sieved(disk: Disk, missing: seq<Wanted>)

  /** missing_packages */
  function Missing(d: Disk, wanted: seq<Wanted>): Sieved
    decreases |wanted|
  {
    if wanted == [] then Sieved(d, [])
    else
      var checked := Check(d, wanted[0].package);
      var others := Missing(checked.disk, wanted[1..]);
      if checked.ok then others else Sieved(others.disk, [wanted[0]] + others.missing)
  }

  /** The loops of restore_with_dotnet and restore_with_nuget: they stop at the first failure. */
  function RestoreAll(d: Disk, missing: seq<Wanted>): Result
    decreases |missing|
  {
    if missing == [] then Result(d, true)
    else
      var first := StageRestored(d, missing[0].package, missing[0].restored);
      if first.ok then RestoreAll(first.disk, missing[1..]) else first
  }

  datatype Mode = Http | Restore

  /** One build: its mode, the packages it wants, and the names of native files. */
  datatype Build = Build(mode: Mode, wanted: seq<Wanted>, native: seq<string>)

  /** Reset what is stale, then acquire. */
  function Acquire(d: Disk, b: Build): Result {
    var reset := ResetIfStale(d, Packages(b.wanted), b.native);
    if !reset.ok then reset
    else match b.mode
      case Http => DownloadAll(reset.disk, b.wanted)
      case Restore =>
        var sieved := Missing(reset.disk, b.wanted);
        RestoreAll(sieved.disk, sieved.missing)
  }

  /** Builds one after another, whatever became of each. */
  function AfterBuilds(d: Disk, builds: seq<Build>): Disk
    decreases |builds|
  {
    if builds == [] then d else AfterBuilds(Acquire(d, builds[0]).disk, builds[1..])
  }
}
