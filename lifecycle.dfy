/**
 * The application lifecycle observer (LifecycleObserver.kt). Each callback
 * returns the `track` calls it makes, in order; the host hands them to
 * `Datablit.Track`. The stored version and build live in the shared preferences.
 */
module Lifecycle {
  import opened Wrappers
  import opened Events
  import opened Preferences

  const VersionKey := "version"
  const BuildKey := "build"
  const ApplicationInstalled := "Application Installed"
  const ApplicationUpdated := "Application Updated"
  const ApplicationOpened := "Application Opened"
  const ApplicationBackgrounded := "Application Backgrounded"

  /** The installed package's version name (nullable) and its build number, already rendered as text. */
  datatype PackageInfo = PackageInfo(versionName: Option<string>, versionCode: string)

  /** One `datablit.track(name, properties)` call. */
  datatype TrackCall = TrackCall(name: string, properties: Props)

  /** The host's lifecycle callbacks. */
  datatype Callback = OnCreate | OnStart | OnResume | OnPause | OnStop | OnDestroy

  /** Kotlin's `toString()` on a nullable value: the text "null" for null. */
  function NullableToString(s: Option<string>): (t: string)
    ensures s.Some? ==> t == s.value
    ensures s.None? ==> t == "null"
  {
    match s
    case Some(v) => v
    case None => "null"
  }

  /** `packageInfo?.versionName.toString()`. */
  function CurrentVersion(info: Option<PackageInfo>): (v: string)
    ensures info.None? ==> v == "null"
    ensures info.Some? ==> v == NullableToString(info.value.versionName)
  {
    match info
    case None => "null"
    case Some(p) => NullableToString(p.versionName)
  }

  /** `packageInfo?.(long)versionCode.toString()`. */
  function CurrentBuild(info: Option<PackageInfo>): (b: string)
    ensures info.None? ==> b == "null"
    ensures info.Some? ==> b == info.value.versionCode
  {
    match info
    case None => "null"
    case Some(p) => p.versionCode
  }

  function InstalledCall(version: string, build: string): TrackCall {
    TrackCall(ApplicationInstalled, map["version" := Text(version), "build" := Text(build)])
  }

  function UpdatedCall(version: string, build: string, previousVersion: Option<string>,
                       previousBuild: Option<string>): TrackCall {
    TrackCall(ApplicationUpdated, map["version" := Text(version), "build" := Text(build),
                                      "previous_version" := Text(NullableToString(previousVersion)),
                                      "previous_build" := Text(NullableToString(previousBuild))])
  }

  /** Whether `onCreate` treats the stored pair as "never installed". */
  predicate FreshInstall(previousVersion: Option<string>, previousBuild: Option<string>) {
    previousVersion.None? && previousBuild.None?
  }

  /**
   * The calls `onCreate` makes given the stored pair and the running package:
   * "Application Installed" when nothing is stored, "Application Updated" when
   * the stored version is not the running one (a missing version counts as
   * different), and nothing when the versions agree, whatever the builds are.
   */
  function CreateCalls(previousVersion: Option<string>, previousBuild: Option<string>,
                       version: string, build: string): (calls: seq<TrackCall>)
    ensures |calls| <= 1
    ensures FreshInstall(previousVersion, previousBuild) ==> calls == [InstalledCall(version, build)]
    ensures !FreshInstall(previousVersion, previousBuild) && previousVersion != Some(version)
            ==> calls == [UpdatedCall(version, build, previousVersion, previousBuild)]
    ensures previousVersion == Some(version) ==> calls == []
    ensures calls == [] <==> previousVersion == Some(version)
  {
    if FreshInstall(previousVersion, previousBuild) then [InstalledCall(version, build)]
    else if previousVersion != Some(version) then [UpdatedCall(version, build, previousVersion, previousBuild)]
    else []
  }

  /** The stored pair after `onCreate`: only a fresh install records the running version and build. */
  function StoreAfterCreate(store: map<string, string>, version: string, build: string): (s: map<string, string>)
    ensures (VersionKey !in store && BuildKey !in store) ==> s == store[VersionKey := version][BuildKey := build]
    ensures !(VersionKey !in store && BuildKey !in store) ==> s == store
  {
    if VersionKey !in store && BuildKey !in store then store[VersionKey := version][BuildKey := build] else store
  }

  /** The single call `onStart` makes: `from_background` is the negation of the launch flag it reads. */
  function OpenedCall(firstLaunch: bool): (c: TrackCall)
    ensures c.name == ApplicationOpened
    ensures c.properties.Keys == {"from_background"}
    ensures c.properties["from_background"] == Flag(!firstLaunch)
  {
    TrackCall(ApplicationOpened, map["from_background" := Flag(!firstLaunch)])
  }

  /** The launch flag after one callback: set by create, cleared by start, kept by the rest. */
  function FlagAfter(flag: bool, cb: Callback): bool {
    match cb
    case OnCreate => true
    case OnStart => false
    case _ => flag
  }

  /** The launch flag after a run of callbacks. */
  function FlagAfterAll(flag: bool, cbs: seq<Callback>): bool
    decreases |cbs|
  {
    if cbs == [] then flag else FlagAfter(FlagAfterAll(flag, cbs[..|cbs| - 1]), cbs[|cbs| - 1])
  }

  /** Some create in `cbs` has no start after it. */
  predicate CreateSinceLastStart(cbs: seq<Callback>) {
    exists i :: 0 <= i < |cbs| && cbs[i] == OnCreate && forall j :: i < j < |cbs| ==> cbs[j] != OnStart
  }

  /**
   * Starting from the constructor's `false`, a start reports `from_background = false`
   * exactly when a create happened since the previous start; a later start, or a
   * start that no create preceded, reports `true`.
   */
  lemma {:induction false} OpenedFromBackground(cbs: seq<Callback>)
    ensures OpenedCall(FlagAfterAll(false, cbs)).properties["from_background"]
            == Flag(!CreateSinceLastStart(cbs))
  {
    if cbs == [] {
    } else {
      var n := |cbs| - 1;
      var prefix := cbs[..n];
      OpenedFromBackground(prefix);
      assert cbs == prefix + [cbs[n]];
      match cbs[n]
      case OnCreate =>
        assert CreateSinceLastStart(cbs);
      case OnStart =>
      case _ =>
        if CreateSinceLastStart(cbs) {
          var i :| 0 <= i < |cbs| && cbs[i] == OnCreate && forall j :: i < j < |cbs| ==> cbs[j] != OnStart;
          assert i < n && prefix[i] == OnCreate;
          assert CreateSinceLastStart(prefix);
        }
        if CreateSinceLastStart(prefix) {
          var i :| 0 <= i < |prefix| && prefix[i] == OnCreate && forall j :: i < j < |prefix| ==> prefix[j] != OnStart;
          assert cbs[i] == OnCreate;
          assert CreateSinceLastStart(cbs);
        }
    }
  }

  /**
   * An update is never recorded: with the stored pair left as it was, the next
   * create on the same package reports "Application Updated" again.
   */
  lemma UpdatedRepeats(store: map<string, string>, version: string, build: string)
    requires !(VersionKey !in store && BuildKey !in store)
    requires Lookup(store, VersionKey) != Some(version)
    ensures var after := StoreAfterCreate(store, version, build);
            after == store
            && CreateCalls(Lookup(after, VersionKey), Lookup(after, BuildKey), version, build)
               == CreateCalls(Lookup(store, VersionKey), Lookup(store, BuildKey), version, build)
               == [UpdatedCall(version, build, Lookup(store, VersionKey), Lookup(store, BuildKey))]
  {
  }

  /** After a fresh install the stored pair is the running one, so the next create is silent. */
  lemma InstallThenSilent(store: map<string, string>, version: string, build: string)
    requires VersionKey !in store && BuildKey !in store
    ensures var after := StoreAfterCreate(store, version, build);
            CreateCalls(Lookup(after, VersionKey), Lookup(after, BuildKey), version, build) == []
  {
  }

  class LifecycleObserver {
    const prefs: Prefs
    const packageInfo: Option<PackageInfo>
    var firstLaunch: bool

    constructor (prefs: Prefs, packageInfo: Option<PackageInfo>)
      ensures this.prefs == prefs && this.packageInfo == packageInfo
      ensures !firstLaunch
    {
      this.prefs := prefs;
      this.packageInfo := packageInfo;
      firstLaunch := false;
    }

    /** The stored (version, build) pair, each null when absent. */
    function GetVersionAndBuild(): (pair: (Option<string>, Option<string>))
      reads prefs
      ensures pair.0 == Lookup(prefs.store, VersionKey) && pair.1 == Lookup(prefs.store, BuildKey)
    {
      (prefs.GetString(VersionKey), prefs.GetString(BuildKey))
    }

    method SaveVersionAndBuild(version: string, build: string)
      modifies prefs
      ensures prefs.store == old(prefs.store)[VersionKey := version][BuildKey := build]
    {
      prefs.PutString(VersionKey, version);
      prefs.PutString(BuildKey, build);
    }

    method Create() returns (calls: seq<TrackCall>)
      modifies this, prefs
      ensures firstLaunch == FlagAfter(old(firstLaunch), OnCreate)
      ensures calls == CreateCalls(Lookup(old(prefs.store), VersionKey), Lookup(old(prefs.store), BuildKey),
                                   CurrentVersion(packageInfo), CurrentBuild(packageInfo))
      ensures prefs.store == StoreAfterCreate(old(prefs.store), CurrentVersion(packageInfo), CurrentBuild(packageInfo))
    {
      firstLaunch := true;
      var curVersion := CurrentVersion(packageInfo);
      var curBuild := CurrentBuild(packageInfo);
      var pair := GetVersionAndBuild();
      if pair.0.None? && pair.1.None? {
        calls := [InstalledCall(curVersion, curBuild)];
        SaveVersionAndBuild(curVersion, curBuild);
      } else if Some(curVersion) != pair.0 {
        calls := [UpdatedCall(curVersion, curBuild, pair.0, pair.1)];
      } else {
        calls := [];
      }
    }

    method Start() returns (calls: seq<TrackCall>)
      modifies this
      ensures firstLaunch == FlagAfter(old(firstLaunch), OnStart)
      ensures calls == [OpenedCall(old(firstLaunch))]
    {
      var wasFirst := firstLaunch;
      firstLaunch := false;
      calls := [OpenedCall(wasFirst)];
    }

    /** `onStop`: exactly one "Application Backgrounded" with no properties. */
    method Stop() returns (calls: seq<TrackCall>)
      ensures calls == [TrackCall(ApplicationBackgrounded, map[])]
    {
      calls := [TrackCall(ApplicationBackgrounded, map[])];
    }

    /** `onResume`, `onPause` and `onDestroy` track nothing. */
    method Resume() returns (calls: seq<TrackCall>)
      ensures calls == []
    {
      calls := [];
    }

    method Pause() returns (calls: seq<TrackCall>)
      ensures calls == []
    {
      calls := [];
    }

    method Destroy() returns (calls: seq<TrackCall>)
      ensures calls == []
    {
      calls := [];
    }
  }
}
