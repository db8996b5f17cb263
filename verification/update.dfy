/**
 * The `update-versions` command: refresh the pinned digests of remote base images
 * and the versions and checksums of apps that declare update scripts, then save
 * the versions table only if something changed.
 *
 * The registry maps an `image:tag` reference to its current digest; the shell
 * maps a script to its standard output. Both are oracles that may fail. The Go
 * loops run over maps, whose iteration order is unspecified; the outcome of a
 * successful run does not depend on it, and a failing run names the set of
 * entries one of which is reported.
 */
module UpdateVersions {
  import opened Results
  import opened Text
  import opened VersionsFile
  import Build

  datatype UpdateFlags = UpdateFlags(versionsFile: String, platform: String)

  datatype UpdateFlagError = EmptyVersionsFile | UnknownPlatform

  /** updateVersionsFlags.Validate: a versions file, then a known platform. */
  function ValidateFlags(f: UpdateFlags): (r: Result<UpdateFlags, UpdateFlagError>)
    ensures r.Ok? <==> f.versionsFile != "" && Build.KnownPlatform(f.platform)
    ensures f.versionsFile == "" ==> r == Err(EmptyVersionsFile)
    ensures r.Ok? ==> r.value == f
  {
    if f.versionsFile == "" then Err(EmptyVersionsFile)
    else if !Build.KnownPlatform(f.platform) then Err(UnknownPlatform)
    else Ok(f)
  }

  type Registry = String -> Result<String, String>
  type Shell = String -> Result<String, String>

  /** What checking one entry gives: nothing to do, a new value, or a failure that aborts the run. */
  datatype Outcome<T> = Unchanged | Changed(next: T) | Failed

  /** Remote base images are looked up; missing entries and local images are not. */
  predicate IsRemote(entry: Option<BaseImage>) {
    entry.Some? && entry.value.localImage == ""
  }

  /** The reference a remote base image is looked up by. */
  function Reference(b: BaseImage): String {
    b.image + ":" + b.tag
  }

  /** One base image: the digest is replaced only when the registry reports a different one. */
  function CheckBaseImage(entry: Option<BaseImage>, registry: Registry): (o: Outcome<BaseImage>)
    ensures !IsRemote(entry) ==> o == Unchanged
    ensures o == Failed <==> IsRemote(entry) && registry(Reference(entry.value)).Err?
    ensures o.Changed? <==>
      IsRemote(entry) && registry(Reference(entry.value)).Ok? && registry(Reference(entry.value)).value != entry.value.digest
    ensures o.Changed? ==> o.next == entry.value.(digest := registry(Reference(entry.value)).value)
  {
    if !IsRemote(entry) then Unchanged
    else
      var b := entry.value;
      match registry(Reference(b))
      case Err(_) => Failed
      case Ok(digest) => if digest != b.digest then Changed(b.(digest := digest)) else Unchanged
  }

  /** Skipped base images are never looked up: any registry gives the same outcome. */
  lemma SkippedBaseImageNotLookedUp(entry: Option<BaseImage>, r1: Registry, r2: Registry)
    requires !IsRemote(entry)
    ensures CheckBaseImage(entry, r1) == CheckBaseImage(entry, r2) == Unchanged
  {
  }

  /** A remote base image is looked up only by its `image:tag` reference. */
  lemma BaseImageLookedUpByReference(entry: Option<BaseImage>, r1: Registry, r2: Registry)
    requires IsRemote(entry) && r1(Reference(entry.value)) == r2(Reference(entry.value))
    ensures CheckBaseImage(entry, r1) == CheckBaseImage(entry, r2)
  {
  }

  /** An app is checked only when it declares a version script. */
  predicate HasVersionScript(entry: Option<AppVersion>) {
    entry.Some? && entry.value.cmds.Some? && entry.value.cmds.value.updateVersion != ""
  }

  /**
   * One app: the trimmed output of its version script is the latest version. A
   * new version is recorded, and then, if the app has a checksum script, its
   * trimmed output becomes the checksums.
   */
  function CheckApp(entry: Option<AppVersion>, shell: Shell): (o: Outcome<AppVersion>)
    ensures !HasVersionScript(entry) ==> o == Unchanged
    ensures o.Changed? ==> HasVersionScript(entry) && shell(entry.value.cmds.value.updateVersion).Ok?
    ensures o.Changed? ==> o.next.version == TrimSpace(shell(entry.value.cmds.value.updateVersion).value) != entry.value.version
    ensures o.Changed? ==> o.next.cmds == entry.value.cmds
    ensures o.Changed? && entry.value.cmds.value.updateChecksums == "" ==> o.next.checksums == entry.value.checksums
    ensures o.Changed? && entry.value.cmds.value.updateChecksums != "" ==>
      shell(entry.value.cmds.value.updateChecksums).Ok?
      && o.next.checksums == TrimSpace(shell(entry.value.cmds.value.updateChecksums).value)
    ensures HasVersionScript(entry) && shell(entry.value.cmds.value.updateVersion).Err? ==> o == Failed
    ensures (HasVersionScript(entry) && shell(entry.value.cmds.value.updateVersion).Ok?
             && TrimSpace(shell(entry.value.cmds.value.updateVersion).value) == entry.value.version) ==> o == Unchanged
    ensures (HasVersionScript(entry) && shell(entry.value.cmds.value.updateVersion).Ok?
             && TrimSpace(shell(entry.value.cmds.value.updateVersion).value) != entry.value.version
             && (entry.value.cmds.value.updateChecksums == "" || shell(entry.value.cmds.value.updateChecksums).Ok?)) ==> o.Changed?
    ensures (HasVersionScript(entry) && shell(entry.value.cmds.value.updateVersion).Ok?
             && TrimSpace(shell(entry.value.cmds.value.updateVersion).value) != entry.value.version
             && entry.value.cmds.value.updateChecksums != "" && shell(entry.value.cmds.value.updateChecksums).Err?) ==> o == Failed
  {
    if !HasVersionScript(entry) then Unchanged
    else
      var app := entry.value;
      var cmds := app.cmds.value;
      match shell(cmds.updateVersion)
      case Err(_) => Failed
      case Ok(out) =>
        var version := TrimSpace(out);
        if version == app.version then Unchanged
        else if cmds.updateChecksums == "" then Changed(app.(version := version))
        else match shell(cmds.updateChecksums)
          case Err(_) => Failed
          case Ok(sums) => Changed(app.(version := version, checksums := TrimSpace(sums)))
  }

  /** Skipped apps run no script: any shell gives the same outcome. */
  lemma SkippedAppRunsNoScript(entry: Option<AppVersion>, s1: Shell, s2: Shell)
    requires !HasVersionScript(entry)
    ensures CheckApp(entry, s1) == CheckApp(entry, s2) == Unchanged
  {
  }

  /**
   * When the version script reports the current version, the checksum script is
   * not run: shells that agree on the version script give the same outcome.
   */
  lemma SameVersionSkipsChecksums(entry: Option<AppVersion>, s1: Shell, s2: Shell)
    requires HasVersionScript(entry)
    requires s1(entry.value.cmds.value.updateVersion) == s2(entry.value.cmds.value.updateVersion)
    requires s1(entry.value.cmds.value.updateVersion).Ok?
    requires TrimSpace(s1(entry.value.cmds.value.updateVersion).value) == entry.value.version
    ensures CheckApp(entry, s1) == CheckApp(entry, s2) == Unchanged
  {
  }

  /** The entry after its check: the new value if it changed, the old one otherwise. */
  function Apply<T>(entry: Option<T>, o: Outcome<T>): Option<T> {
    if o.Changed? then Some(o.next) else entry
  }

  datatype UpdateError =
    | BaseImageLookupFailed(candidates: set<String>)
    | AppScriptFailed(candidates: set<String>)

  /** The result of a successful run: the new table, what changed and whether the file is written. */
  datatype UpdateReport = UpdateReport(
    versions: Versions,
    updatedBaseImages: set<String>,
    updatedApps: set<String>,
    save: bool)

  function FailedBaseImages(v: Versions, registry: Registry): set<String> {
    set k | k in v.baseImages && CheckBaseImage(v.baseImages[k], registry) == Failed
  }

  function FailedApps(v: Versions, shell: Shell): set<String> {
    set k | k in v.apps && CheckApp(v.apps[k], shell) == Failed
  }

  /** The base images after their checks, and the ones that changed. */
  function CheckBaseImages(images: map<String, Option<BaseImage>>, registry: Registry)
    : (r: (map<String, Option<BaseImage>>, set<String>))
    ensures r.0.Keys == images.Keys && r.1 <= images.Keys
    ensures forall k :: k in images ==> (k in r.1 <==> r.0[k] != images[k])
    ensures forall k :: k in images ==> r.0[k] == Apply(images[k], CheckBaseImage(images[k], registry))
    ensures forall k :: k in images ==> (k in r.1 <==> CheckBaseImage(images[k], registry).Changed?)
  {
    var next := map k | k in images :: Apply(images[k], CheckBaseImage(images[k], registry));
    var updated := set k | k in images && CheckBaseImage(images[k], registry).Changed?;
    assert forall k :: k in images ==> (k in updated <==> next[k] != images[k]) by {
      forall k | k in images ensures k in updated <==> next[k] != images[k] {
        var o := CheckBaseImage(images[k], registry);
        if o.Changed? {
          assert o.next.digest != images[k].value.digest;
        }
      }
    }
    (next, updated)
  }

  /** The apps after their checks, and the ones that changed. */
  function CheckApps(apps: map<String, Option<AppVersion>>, shell: Shell)
    : (r: (map<String, Option<AppVersion>>, set<String>))
    ensures r.0.Keys == apps.Keys && r.1 <= apps.Keys
    ensures forall k :: k in apps ==> (k in r.1 <==> r.0[k] != apps[k])
    ensures forall k :: k in apps ==> r.0[k] == Apply(apps[k], CheckApp(apps[k], shell))
    ensures forall k :: k in apps ==> (k in r.1 <==> CheckApp(apps[k], shell).Changed?)
  {
    var next := map k | k in apps :: Apply(apps[k], CheckApp(apps[k], shell));
    var updated := set k | k in apps && CheckApp(apps[k], shell).Changed?;
    assert forall k :: k in apps ==> (k in updated <==> next[k] != apps[k]) by {
      forall k | k in apps ensures k in updated <==> next[k] != apps[k] {
        var o := CheckApp(apps[k], shell);
        if o.Changed? {
          assert o.next.version != apps[k].value.version;
        }
      }
    }
    (next, updated)
  }

  /**
   * The update-versions run. Base images are all checked before any app, so a
   * failing base image is what is reported when both kinds fail. On success the
   * file is saved exactly when some entry changed.
   */
  function Update(v: Versions, registry: Registry, shell: Shell): (r: Result<UpdateReport, UpdateError>)
    ensures r.Ok? <==> FailedBaseImages(v, registry) == {} && FailedApps(v, shell) == {}
    ensures FailedBaseImages(v, registry) != {} ==> r == Err(BaseImageLookupFailed(FailedBaseImages(v, registry)))
    ensures FailedBaseImages(v, registry) == {} && FailedApps(v, shell) != {} ==> r == Err(AppScriptFailed(FailedApps(v, shell)))
    ensures r.Ok? ==> r.value.versions.baseImages.Keys == v.baseImages.Keys && r.value.versions.apps.Keys == v.apps.Keys
    ensures r.Ok? ==> forall k :: k in v.baseImages ==>
      r.value.versions.baseImages[k] == Apply(v.baseImages[k], CheckBaseImage(v.baseImages[k], registry))
    ensures r.Ok? ==> forall k :: k in v.apps ==>
      r.value.versions.apps[k] == Apply(v.apps[k], CheckApp(v.apps[k], shell))
    ensures r.Ok? ==> forall k :: k in v.baseImages ==>
      (k in r.value.updatedBaseImages <==> r.value.versions.baseImages[k] != v.baseImages[k])
    ensures r.Ok? ==> forall k :: k in v.apps ==>
      (k in r.value.updatedApps <==> r.value.versions.apps[k] != v.apps[k])
    ensures r.Ok? ==> r.value.updatedBaseImages <= v.baseImages.Keys && r.value.updatedApps <= v.apps.Keys
    ensures r.Ok? ==> (r.value.save <==> r.value.updatedBaseImages != {} || r.value.updatedApps != {})
  {
    var failedImages := FailedBaseImages(v, registry);
    var failedApps := FailedApps(v, shell);
    if failedImages != {} then Err(BaseImageLookupFailed(failedImages))
    else if failedApps != {} then Err(AppScriptFailed(failedApps))
    else
      var (images, updatedImages) := CheckBaseImages(v.baseImages, registry);
      var (apps, updatedApps) := CheckApps(v.apps, shell);
      Ok(UpdateReport(Versions(images, apps), updatedImages, updatedApps, updatedImages != {} || updatedApps != {}))
  }

  lemma RecheckBaseImage(entry: Option<BaseImage>, registry: Registry)
    requires CheckBaseImage(entry, registry) != Failed
    ensures CheckBaseImage(Apply(entry, CheckBaseImage(entry, registry)), registry) == Unchanged
  {
  }

  lemma RecheckApp(entry: Option<AppVersion>, shell: Shell)
    requires CheckApp(entry, shell) != Failed
    ensures CheckApp(Apply(entry, CheckApp(entry, shell)), shell) == Unchanged
  {
    var o := CheckApp(entry, shell);
    if o.Changed? {
      var next := Apply(entry, o);
      assert next.value.cmds == entry.value.cmds;
      assert HasVersionScript(next);
    }
  }

  /**
   * With a registry and scripts that keep answering the same, a second run right
   * after a successful one finds nothing to change and does not save.
   */
  lemma UpdateSettles(v: Versions, registry: Registry, shell: Shell)
    requires Update(v, registry, shell).Ok?
    ensures Update(Update(v, registry, shell).value.versions, registry, shell).Ok?
    ensures !Update(Update(v, registry, shell).value.versions, registry, shell).value.save
    ensures Update(Update(v, registry, shell).value.versions, registry, shell).value.versions == Update(v, registry, shell).value.versions
  {
    var w := Update(v, registry, shell).value.versions;
    forall k | k in w.baseImages ensures CheckBaseImage(w.baseImages[k], registry) == Unchanged {
      assert k !in FailedBaseImages(v, registry);
      RecheckBaseImage(v.baseImages[k], registry);
    }
    forall k | k in w.apps ensures CheckApp(w.apps[k], shell) == Unchanged {
      assert k !in FailedApps(v, shell);
      RecheckApp(v.apps[k], shell);
    }
    assert FailedBaseImages(w, registry) == {};
    assert FailedApps(w, shell) == {};
    var w2 := Update(w, registry, shell).value;
    assert w2.updatedBaseImages == {};
    assert w2.updatedApps == {};
    assert w2.versions.baseImages == w.baseImages;
    assert w2.versions.apps == w.apps;
  }
}
