/**
  The build script's acquisition of native packages, statement by statement on an output
  directory that is changed in place (sdk_v2/rust/build_support.rs:212-304,
  sdk_v2/rust/build.rs:244-297, 323-461, 562-606, sdk_v2/rust/http_extract.rs:74-84).
*/
module NativeBuild {
  import opened VersionMarkers
  import opened VersionMarkerProperties

  class OutDir {
    var payload: map<string, Payload>
    var markers: map<string, string>
    var outcomes: seq<Outcome>

    constructor (outcomes: seq<Outcome>)
      ensures View() == EmptyDisk(outcomes)
    {
      payload, markers, this.outcomes := map[], map[], outcomes;
    }

    function View(): Disk
      reads this
    {
      Disk(payload, markers, outcomes)
    }

    method NextOutcome() returns (next: Outcome)
      modifies this`outcomes
      ensures next == old(View()).Next() && View() == old(View()).Later()
    {
      next := Success;
      if outcomes != [] {
        next, outcomes := outcomes[0], outcomes[1..];
      }
    }

    method TouchFile() returns (ok: bool)
      modifies this`outcomes
      ensures Result(View(), ok) == Touch(old(View()))
    {
      var next := NextOutcome();
      ok := next == Success;
    }

    method RemoveNative(f: string) returns (ok: bool)
      modifies this
      ensures Result(View(), ok) == RemovePayload(old(View()), f)
    {
      var next := NextOutcome();
      ok := next == Success;
      if ok {
        payload := payload - {f};
      }
    }

    method ForgetVersion(e: string) returns (ok: bool)
      modifies this
      ensures Result(View(), ok) == RemoveMarker(old(View()), e)
    {
      var next := NextOutcome();
      ok := next == Success;
      if ok {
        markers := markers - {e};
      }
    }

    method CopyFile(f: string, package: Package) returns (ok: bool)
      modifies this
      ensures Result(View(), ok) == Copy(old(View()), f, package)
    {
      var next := NextOutcome();
      ok := next == Success;
      if next != Failure {
        payload := payload[f := Payload(package.expected, package.version, ok)];
      }
    }

    /** record_package_version */
    method RecordVersion(package: Package) returns (ok: bool)
      modifies this
      ensures Result(View(), ok) == Record(old(View()), package)
    {
      var next := NextOutcome();
      var v := package.version;
      ok := next == Success;
      if next.Torn? && next.length <= |v| {
        v := v[..next.length];
      }
      assert package.version[..|package.version|] == package.version;
      if next != Failure {
        markers := markers[package.expected := v];
      }
    }

    /** stage_files */
    method StageFiles(files: seq<string>, package: Package) returns (ok: bool)
      modifies this
      ensures Result(View(), ok) == Stage(old(View()), files, package)
    {
      for i := 0 to |files|
        invariant Stage(old(View()), files, package) == Stage(View(), files[i..], package)
      {
        assert files[i..][0] == files[i] && files[i..][1..] == files[i + 1..];
        ok := CopyFile(files[i], package);
        if ok {
          ok := TouchFile();
        }
        if !ok {
          return;
        }
      }
      ok := true;
    }

    method StagePackage(files: seq<string>, package: Package) returns (ok: bool)
      modifies this
      ensures Result(View(), ok) == StageAndRecord(old(View()), files, package)
    {
      ok := StageFiles(files, package);
      if ok {
        ok := RecordVersion(package);
      }
    }

    /** package_is_current */
    method PackageIsCurrent(package: Package) returns (current: bool)
      modifies this
      ensures Result(View(), current) == Check(old(View()), package)
    {
      current := TouchFile();
      if current && package.expected in payload {
        current := TouchFile();
        current := current && Current(payload, markers, package.expected, package.version);
      } else {
        current := false;
      }
    }

    /** download_and_extract: `found` is what each feed in turn yields. */
    method DownloadAndExtract(package: Package, found: seq<Option<seq<string>>>) returns (ok: bool)
      modifies this
      ensures Result(View(), ok) == Download(old(View()), package, found)
    {
      var current := PackageIsCurrent(package);
      if current {
        return true;
      }
      if Trim(package.version) == "" {
        return false;
      }
      ghost var checked := View();
      for i := 0 to |found|
        invariant View() == checked
        invariant DownloadFrom(checked, package, found) == DownloadFrom(checked, package, found[i..])
      {
        assert found[i..][0] == found[i] && found[i..][1..] == found[i + 1..];
        match found[i]
        case Some(files) =>
          ok := StagePackage(files, package);
          return;
        case None =>
      }
      return false;
    }

    /** invalidate_package */
    method InvalidatePackage(e: string) returns (ok: bool)
      modifies this
      ensures Result(View(), ok) == Invalidate(old(View()), e)
    {
      ok := RemoveNative(e);
      if ok {
        ok := ForgetVersion(e);
      }
    }

    /** stage_restored_package: `found` is what the restored package directory holds. */
    method StageRestoredPackage(package: Package, found: Option<seq<string>>) returns (ok: bool)
      modifies this
      ensures Result(View(), ok) == StageRestored(old(View()), package, found)
    {
      if found.None? || found.value == [] || package.expected !in found.value {
        return false;
      }
      ok := InvalidatePackage(package.expected);
      if ok {
        ok := StageFiles(found.value, package);
      }
      if ok {
        ok := TouchFile();
        if ok && package.expected in payload {
          ok := RecordVersion(package);
        } else {
          ok := false;
        }
      }
    }

    method RemoveNativeFiles(native: seq<string>) returns (ok: bool)
      modifies this
      ensures Result(View(), ok) == RemoveFiles(old(View()), native)
    {
      for i := 0 to |native|
        invariant RemoveFiles(old(View()), native) == RemoveFiles(View(), native[i..])
      {
        assert native[i..][0] == native[i] && native[i..][1..] == native[i + 1..];
        if native[i] in payload {
          ok := TouchFile();
          if ok {
            ok := RemoveNative(native[i]);
          }
          if !ok {
            return;
          }
        }
      }
      ok := true;
    }

    method ForgetVersions(packages: seq<Package>) returns (ok: bool)
      modifies this
      ensures Result(View(), ok) == RemoveMarkers(old(View()), packages)
    {
      for i := 0 to |packages|
        invariant RemoveMarkers(old(View()), packages) == RemoveMarkers(View(), packages[i..])
      {
        assert packages[i..][0] == packages[i] && packages[i..][1..] == packages[i + 1..];
        ok := ForgetVersion(packages[i].expected);
        if !ok {
          return;
        }
      }
      ok := true;
    }

    /** The checks of the reset, up to the first that fails. */
    method AllPackagesCurrent(packages: seq<Package>) returns (current: bool)
      modifies this
      ensures Result(View(), current) == CheckAll(old(View()), packages)
    {
      for i := 0 to |packages|
        invariant CheckAll(old(View()), packages) == CheckAll(View(), packages[i..])
      {
        assert packages[i..][0] == packages[i] && packages[i..][1..] == packages[i + 1..];
        current := PackageIsCurrent(packages[i]);
        if !current {
          return;
        }
      }
      current := true;
    }

    /** reset_native_cache_if_stale */
    method ResetNativeCacheIfStale(packages: seq<Package>, native: seq<string>) returns (ok: bool)
      modifies this
      ensures Result(View(), ok) == ResetIfStale(old(View()), packages, native)
    {
      var current := AllPackagesCurrent(packages);
      if current {
        return true;
      }
      ok := TouchFile();
      if ok {
        ok := RemoveNativeFiles(native);
      }
      if ok {
        ok := ForgetVersions(packages);
      }
    }

    /** The HTTP loop goes on after a package that failed. */
    method DownloadPackages(wanted: seq<Wanted>) returns (ok: bool)
      modifies this
      ensures Result(View(), ok) == DownloadAll(old(View()), wanted)
    {
      ok := true;
      for i := 0 to |wanted|
        invariant var others := DownloadAll(View(), wanted[i..]);
                  DownloadAll(old(View()), wanted) == Result(others.disk, ok && others.ok)
      {
        assert wanted[i..][0] == wanted[i] && wanted[i..][1..] == wanted[i + 1..];
        var good := DownloadAndExtract(wanted[i].package, wanted[i].feeds);
        ok := ok && good;
      }
    }

    /** missing_packages */
    method MissingPackages(wanted: seq<Wanted>) returns (missing: seq<Wanted>)
      modifies this
      ensures Sieved(View(), missing) == Missing(old(View()), wanted)
    {
      missing := [];
      for i := 0 to |wanted|
        invariant var others := Missing(View(), wanted[i..]);
                  Missing(old(View()), wanted) == Sieved(others.disk, missing + others.missing)
      {
        assert wanted[i..][0] == wanted[i] && wanted[i..][1..] == wanted[i + 1..];
        var current := PackageIsCurrent(wanted[i].package);
        if !current {
          missing := missing + [wanted[i]];
        }
      }
    }

    /** The loop of restore_with_dotnet and restore_with_nuget; it stops at the first failure. */
    method RestorePackages(missing: seq<Wanted>) returns (ok: bool)
      modifies this
      ensures Result(View(), ok) == RestoreAll(old(View()), missing)
    {
      for i := 0 to |missing|
        invariant RestoreAll(old(View()), missing) == RestoreAll(View(), missing[i..])
      {
        assert missing[i..][0] == missing[i] && missing[i..][1..] == missing[i + 1..];
        ok := StageRestoredPackage(missing[i].package, missing[i].restored);
        if !ok {
          return;
        }
      }
      ok := true;
    }

    /**
      One build, whatever file operation fails or is cut short.  Success means that every
      wanted package was staged and recorded in this build, or was current and is
      untouched; markers stay honest if the build succeeds or keeps markers.
    */
    method AcquireNative(b: Build, ghost known: Known) returns (ok: bool)
      requires Sound(View(), known) && Proper(b.wanted, known)
      modifies this
      ensures Result(View(), ok) == Acquire(old(View()), b)
      ensures Sound(View(), known)
      ensures ok || KeepsMarkers(old(View()), b) ==> KeepsGood(old(View()), View(), known)
      ensures ok ==> AllAcquired(old(View()), View(), b.wanted)
      ensures ok && !AllCurrent(old(View()), Packages(b.wanted)) ==> AllStaged(View(), b.wanted)
      ensures old(outcomes) == [] ==>
                (ok <==> AllCurrent(old(View()), Packages(b.wanted)) || forall w :: w in b.wanted ==> Obtainable(b, w))
    {
      AcquireKeeps(View(), b, known);
      if outcomes == [] {
        UndisturbedBuildSucceedsExactlyWhen(View(), b, known);
      }
      hide Good, Sound, Proper, AllStaged, AllAcquired, AllCurrent, KeepsMarkers, ResetIfStale, DownloadAll, RestoreAll,
        Missing, Obtainable;
      ok := ResetNativeCacheIfStale(Packages(b.wanted), b.native);
      if ok {
        match b.mode
        case Http =>
          ok := DownloadPackages(b.wanted);
        case Restore =>
          var missing := MissingPackages(b.wanted);
          ok := RestorePackages(missing);
      }
    }
  }

  /**
    Any sequence of builds, each cut short by any failed file operation.  If each of them
    keeps markers or succeeds, a package that is reported current has the whole expected
    file of that version, unless the version reads like the beginning of another one.
  */
  method RunBuilds(dir: OutDir, builds: seq<Build>, ghost known: Known)
    requires Good(dir.View(), known) && ProperBuilds(builds, known)
    modifies dir
    ensures dir.View() == AfterBuilds(old(dir.View()), builds) && Sound(dir.View(), known)
    ensures Guarded(old(dir.View()), builds) ==>
              Good(dir.View(), known)
              && forall p: Package :: Unambiguous(p.version, known.versions) ==> Reliable(dir.View(), p)
  {
    AfterBuildsKeep(dir.View(), builds, known);
    for i := 0 to |builds|
      invariant Sound(dir.View(), known)
      invariant AfterBuilds(old(dir.View()), builds) == AfterBuilds(dir.View(), builds[i..])
    {
      assert Proper(builds[i].wanted, known);
      hide Good, Sound, Proper, Acquire;
      assert builds[i..][0] == builds[i] && builds[i..][1..] == builds[i + 1..];
      var ok := dir.AcquireNative(builds[i], known);
    }
    if Good(dir.View(), known) {
      GoodIsReliable(dir.View(), known);
    }
  }

  lemma GoodIsReliable(d: Disk, known: Known)
    requires Good(d, known)
    ensures forall p: Package :: Unambiguous(p.version, known.versions) ==> Reliable(d, p)
  {
    forall p: Package | Unambiguous(p.version, known.versions)
      ensures Reliable(d, p)
    {
      if d.IsCurrent(p) {
        CurrentIsStaged(d, p, known);
      }
    }
  }
}
