/**
 * The `build` command: flag validation, image naming, the base-image reference,
 * the `podman`/`docker` build argument list, digest extraction and the push
 * bookkeeping. The container engine is an oracle: it maps a program name and
 * its arguments to the command's standard output, or to a failure.
 */
module Build {
  import opened Results
  import opened Text
  import opened Paths
  import opened VersionsFile
  import Models

  datatype BuildFlags = BuildFlags(
    push: bool,
    platform: String,
    repository: String,
    tags: seq<String>,
    archs: seq<String>,
    versionsFile: String)

  datatype FlagError = NoArch | EmptyRepository | EmptyVersionsFile | UnknownPlatform

  predicate KnownPlatform(p: String) {
    p == "podman" || p == "docker"
  }

  predicate IsPodman(f: BuildFlags) {
    f.platform == "podman"
  }

  /** The tag list with "latest" added at the end unless it is already there. */
  function WithLatest(tags: seq<String>): (r: seq<String>)
    ensures "latest" in r
    ensures "latest" in tags ==> r == tags
    ensures "latest" !in tags ==> r == tags + ["latest"]
  {
    if "latest" in tags then tags else tags + ["latest"]
  }

  /** Adding "latest" keeps every tag, in order, and adds nothing but "latest". */
  lemma WithLatestKeepsTags(tags: seq<String>)
    ensures WithLatest(WithLatest(tags)) == WithLatest(tags)
    ensures WithLatest(tags)[..|tags|] == tags
    ensures forall t :: t in WithLatest(tags) <==> t in tags || t == "latest"
  {
  }

  /**
   * buildFlags.Validate: at least one architecture, a repository, a versions file
   * and a known platform, checked in that order; on success "latest" is among the tags.
   */
  function ValidateFlags(f: BuildFlags): (r: Result<BuildFlags, FlagError>)
    ensures r.Ok? <==> |f.archs| > 0 && f.repository != "" && f.versionsFile != "" && KnownPlatform(f.platform)
    ensures |f.archs| == 0 ==> r == Err(NoArch)
    ensures |f.archs| > 0 && f.repository == "" ==> r == Err(EmptyRepository)
    ensures |f.archs| > 0 && f.repository != "" && f.versionsFile == "" ==> r == Err(EmptyVersionsFile)
    ensures r.Ok? ==> "latest" in r.value.tags && r.value == f.(tags := WithLatest(f.tags))
  {
    if |f.archs| == 0 then Err(NoArch)
    else if f.repository == "" then Err(EmptyRepository)
    else if f.versionsFile == "" then Err(EmptyVersionsFile)
    else if !KnownPlatform(f.platform) then Err(UnknownPlatform)
    else Ok(f.(tags := WithLatest(f.tags)))
  }

  /** Validating validated flags changes nothing. */
  lemma ValidateFlagsIdempotent(f: BuildFlags)
    requires ValidateFlags(f).Ok?
    ensures ValidateFlags(ValidateFlags(f).value) == ValidateFlags(f)
  {
    WithLatestKeepsTags(f.tags);
  }

  /** The image name under the repository. */
  function ImageName(repository: String, name: String): String {
    Join(repository, name)
  }

  /** The image name with a tag. */
  function ImageNameTag(repository: String, name: String, tag: String): String {
    ImageName(repository, name) + ":" + tag
  }

  /** A reference split at its last ':' into name and tag. */
  function SplitTag(reference: String): (r: Option<(String, String)>)
    ensures r.Some? ==> r.value.0 + ":" + r.value.1 == reference && ':' !in r.value.1
    ensures r.None? <==> ':' !in reference
  {
    match LastIndex(reference, ':')
    case None => None
    case Some(i) =>
      assert reference == reference[..i] + ":" + reference[i + 1..];
      Some((reference[..i], reference[i + 1..]))
  }

  /** A tag without ':' is recovered from the tagged image name, and so is the image name. */
  lemma ImageNameTagSplits(repository: String, name: String, tag: String)
    requires ':' !in tag
    ensures SplitTag(ImageNameTag(repository, name, tag)) == Some((ImageName(repository, name), tag))
  {
    var n := ImageName(repository, name);
    LastIndexOfJoin(n, ':', tag);
    assert ImageNameTag(repository, name, tag) == n + [':'] + tag;
    assert (n + [':'] + tag)[..|n|] == n;
    assert (n + [':'] + tag)[|n| + 1..] == tag;
  }

  /** The image of a plain name lives directly under the repository. */
  lemma ImageNameUnderRepository(repository: String, name: String)
    requires repository != "" && IsName(name)
    ensures HasPrefix(ImageName(repository, name), repository + "/")
    ensures Base(ImageName(repository, name)) == name
  {
    LastSlashOfJoin(repository, name);
    assert (repository + "/" + name)[|repository| + 1..] == name;
  }

  datatype Step = BuildImage | TagLatest | InspectDigest | TagForPush | PushImage

  datatype BuildError =
    | UnknownBaseImage(baseImage: String)
    | UnknownApp(app: String)
    | EmptyEntry(entry: String)
    | EngineFailed(step: Step)
    | UnrecognisedDigestOutput

  /**
   * The BASE_IMAGE build argument: a local image is taken from the repository at
   * "latest"; any other image is pinned by digest. An entry with no value is
   * dereferenced by the Go code; it is an error here.
   */
  function BaseImageRef(repository: String, versions: Versions, baseImage: String): (r: Result<String, BuildError>)
    ensures baseImage !in versions.baseImages ==> r == Err(UnknownBaseImage(baseImage))
    ensures baseImage in versions.baseImages && versions.baseImages[baseImage].None? ==> r == Err(EmptyEntry(baseImage))
    ensures r.Ok? <==> baseImage in versions.baseImages && versions.baseImages[baseImage].Some?
    ensures r.Ok? && versions.baseImages[baseImage].value.localImage != "" ==>
      SplitTag(r.value) == Some((ImageName(repository, versions.baseImages[baseImage].value.localImage), "latest"))
    ensures r.Ok? && versions.baseImages[baseImage].value.localImage == "" ==>
      r.value == versions.baseImages[baseImage].value.image + "@sha256:" + versions.baseImages[baseImage].value.digest
    ensures r.Ok? && versions.baseImages[baseImage].value.localImage == "" && '@' !in versions.baseImages[baseImage].value.image ==>
      Cut(r.value, "@") == Some((versions.baseImages[baseImage].value.image, "sha256:" + versions.baseImages[baseImage].value.digest))
  {
    if baseImage !in versions.baseImages then Err(UnknownBaseImage(baseImage))
    else match versions.baseImages[baseImage]
      case None => Err(EmptyEntry(baseImage))
      case Some(b) =>
        if b.localImage != "" then
          ImageNameTagSplits(repository, b.localImage, "latest");
          Ok(ImageNameTag(repository, b.localImage, "latest"))
        else
          PinnedCut(b.image, b.digest);
          Ok(b.image + "@sha256:" + b.digest)
  }

  lemma PinnedCut(image: String, digest: String)
    ensures '@' !in image ==> Cut(image + "@sha256:" + digest, "@") == Some((image, "sha256:" + digest))
  {
    if '@' !in image {
      assert image + "@sha256:" + digest == image + ['@'] + ("sha256:" + digest);
      CutAtFirst(image, '@', "sha256:" + digest);
    }
  }

  /** One "linux/<arch>" platform per architecture. */
  function Platforms(archs: seq<String>): seq<String> {
    seq(|archs|, i requires 0 <= i < |archs| => "linux/" + archs[i])
  }

  /** The --platform value: the platforms joined by ','. */
  function PlatformValue(archs: seq<String>): String {
    JoinWith(Platforms(archs), ",")
  }

  /** The --platform value splits back, in order, into one "linux/<arch>" per architecture. */
  lemma PlatformValueSplits(archs: seq<String>)
    requires |archs| >= 1
    requires forall i :: 0 <= i < |archs| ==> ',' !in archs[i]
    ensures SplitOn(PlatformValue(archs), ',') == Platforms(archs)
    ensures forall i :: 0 <= i < |archs| ==> SplitOn(PlatformValue(archs), ',')[i] == "linux/" + archs[i]
  {
    var ps := Platforms(archs);
    forall i | 0 <= i < |ps| ensures ',' !in ps[i] {
      assert ps[i] == "linux/" + archs[i];
    }
    SplitJoin(ps, ',');
  }

  /** The versions entry of an app that the container installs. */
  function AppEntry(versions: Versions, app: String): (r: Result<AppVersion, BuildError>)
    ensures r.Ok? <==> app in versions.apps && versions.apps[app].Some?
    ensures app !in versions.apps ==> r == Err(UnknownApp(app))
    ensures r.Ok? ==> r.value == versions.apps[app].value
  {
    if app !in versions.apps then Err(UnknownApp(app))
    else match versions.apps[app]
      case None => Err(EmptyEntry(app))
      case Some(v) => Ok(v)
  }

  function VersionArg(app: String, version: String): String {
    "VERSION_" + ToUpper(app) + "=" + version
  }

  function ChecksumsArg(app: String, checksums: String): String {
    "CHECKSUMS_" + ToUpper(app) + "=" + checksums
  }

  /** The build arguments of one app: its version, then its checksums, each only when set. */
  function AppArgs(app: String, v: AppVersion): seq<String> {
    (if v.version != "" then ["--build-arg", VersionArg(app, v.version)] else [])
    + (if v.checksums != "" then ["--build-arg", ChecksumsArg(app, v.checksums)] else [])
  }

  /** Arguments that come in "--build-arg", value pairs. */
  predicate BuildArgPairs(args: seq<String>) {
    |args| % 2 == 0 && forall i :: 0 <= i < |args| / 2 ==> args[2 * i] == "--build-arg"
  }

  lemma BuildArgPairsAppend(a: seq<String>, b: seq<String>)
    requires BuildArgPairs(a) && BuildArgPairs(b)
    ensures BuildArgPairs(a + b)
  {
    var ab := a + b;
    forall i | 0 <= i < |ab| / 2 ensures ab[2 * i] == "--build-arg" {
      if 2 * i >= |a| {
        var j := i - |a| / 2;
        assert ab[2 * i] == b[2 * j];
      }
    }
  }

  /**
   * An app's version argument is present exactly when its version is set, its
   * checksums argument exactly when its checksums are set, and the version comes first.
   */
  lemma AppArgsShape(app: String, v: AppVersion)
    ensures BuildArgPairs(AppArgs(app, v))
    ensures VersionArg(app, v.version) in AppArgs(app, v) <==> v.version != ""
    ensures ChecksumsArg(app, v.checksums) in AppArgs(app, v) <==> v.checksums != ""
    ensures v.version != "" ==> AppArgs(app, v)[1] == VersionArg(app, v.version)
    ensures v.version == "" && v.checksums == "" ==> AppArgs(app, v) == []
  {
    var va := VersionArg(app, v.version);
    var ca := ChecksumsArg(app, v.checksums);
    assert va[0] == 'V' && ca[0] == 'C';
    assert "--build-arg"[0] == '-';
    assert va != ca && va != "--build-arg" && ca != "--build-arg";
  }

  /** The build arguments of all apps, in the container's order; the first failing app is the error. */
  function AllAppArgs(apps: seq<String>, versions: Versions): (r: Result<seq<String>, BuildError>)
    ensures r.Ok? <==> forall i :: 0 <= i < |apps| ==> AppEntry(versions, apps[i]).Ok?
    ensures r.Ok? ==> BuildArgPairs(r.value)
    ensures r.Err? ==> exists i :: 0 <= i < |apps| && AppEntry(versions, apps[i]) == Err(r.error)
                                  && forall j :: 0 <= j < i ==> AppEntry(versions, apps[j]).Ok?
    decreases |apps|
  {
    if |apps| == 0 then Ok([])
    else
      var head :- AppEntry(versions, apps[0]);
      var rest :- AllAppArgs(apps[1..], versions);
      AppArgsShape(apps[0], head);
      BuildArgPairsAppend(AppArgs(apps[0], head), rest);
      Ok(AppArgs(apps[0], head) + rest)
  }

  /** The arguments that precede the apps' build arguments. */
  function Header(flags: BuildFlags, config: Models.ContainerConfig, baseRef: String, manifestTag: String): seq<String> {
    ["build", "--platform", PlatformValue(flags.archs), "--file", config.containerfile, "--build-arg", "BASE_IMAGE=" + baseRef]
    + (if IsPodman(flags) then ["--manifest", manifestTag] else ["--tag", manifestTag])
  }

  /**
   * getBuildArgs: the engine's build arguments. The base image is resolved first,
   * then every app in order; the build context comes last.
   */
  function BuildArgs(flags: BuildFlags, config: Models.ContainerConfig, versions: Versions, manifestTag: String): (r: Result<seq<String>, BuildError>)
    ensures r.Ok? <==> BaseImageRef(flags.repository, versions, config.baseImage).Ok? && AllAppArgs(config.apps, versions).Ok?
    ensures BaseImageRef(flags.repository, versions, config.baseImage).Err? ==>
      r == Err(BaseImageRef(flags.repository, versions, config.baseImage).error)
    ensures r.Ok? ==> |r.value| >= 10 && r.value[|r.value| - 1] == config.buildContext
    ensures BaseImageRef(flags.repository, versions, config.baseImage).Ok? && AllAppArgs(config.apps, versions).Err? ==>
      r == Err(AllAppArgs(config.apps, versions).error)
    ensures r.Ok? ==> r.value[..3] == ["build", "--platform", PlatformValue(flags.archs)]
    ensures r.Ok? ==> r.value[3..6] == ["--file", config.containerfile, "--build-arg"]
    ensures r.Ok? ==> r.value[6] == "BASE_IMAGE=" + BaseImageRef(flags.repository, versions, config.baseImage).value
    ensures r.Ok? ==> r.value[7] == (if IsPodman(flags) then "--manifest" else "--tag") && r.value[8] == manifestTag
    ensures r.Ok? ==> r.value[9..|r.value| - 1] == AllAppArgs(config.apps, versions).value
  {
    var baseRef :- BaseImageRef(flags.repository, versions, config.baseImage);
    var appArgs :- AllAppArgs(config.apps, versions);
    var args := Header(flags, config, baseRef, manifestTag) + appArgs + [config.buildContext];
    assert args[9..|args| - 1] == appArgs;
    Ok(args)
  }

  /**
   * The apps' arguments split at any app: those of the apps before it, then its
   * own, then those of the apps after it, so every app contributes its block in
   * the container's order.
   */
  lemma AllAppArgsAt(apps: seq<String>, versions: Versions, i: nat)
    requires i < |apps|
    requires AllAppArgs(apps, versions).Ok?
    ensures AppEntry(versions, apps[i]).Ok?
    ensures AllAppArgs(apps, versions).value
         == AllAppArgs(apps[..i], versions).value + AppArgs(apps[i], AppEntry(versions, apps[i]).value) + AllAppArgs(apps[i + 1..], versions).value
  {
    var before, from := apps[..i], apps[i..];
    var all, pre, tail := AllAppArgs(apps, versions), AllAppArgs(before, versions), AllAppArgs(from, versions);
    assert all == (if pre.Err? then pre else Prepend(pre.value, tail)) by {
      assert before + from == apps;
      AllAppArgsAppend(before, from, versions);
    }
    var e := AppEntry(versions, apps[i]);
    var rest := AllAppArgs(apps[i + 1..], versions);
    assert e.Ok? && tail == Prepend(AppArgs(apps[i], e.value), rest) by {
      AllAppArgsFrom(apps, versions, i);
    }
    PrependPrepend(all, pre.value, tail, AppArgs(apps[i], e.value), rest);
  }

  lemma PrependPrepend(all: Result<seq<String>, BuildError>, a: seq<String>, tail: Result<seq<String>, BuildError>,
                       b: seq<String>, rest: Result<seq<String>, BuildError>)
    requires all.Ok? && all == Prepend(a, tail) && tail == Prepend(b, rest)
    ensures rest.Ok? && all.value == a + b + rest.value
  {
  }

  /** The apps' arguments of two lists in a row are those of the first list followed by those of the second. */
  lemma {:induction false} AllAppArgsAppend(a: seq<String>, b: seq<String>, versions: Versions)
    ensures AllAppArgs(a + b, versions) == if AllAppArgs(a, versions).Err? then AllAppArgs(a, versions) else Prepend(AllAppArgs(a, versions).value, AllAppArgs(b, versions))
    decreases |a|
  {
    if |a| == 0 {
      assert a + b == b;
      assert AllAppArgs(b, versions).Ok? ==> [] + AllAppArgs(b, versions).value == AllAppArgs(b, versions).value;
    } else {
      assert (a + b)[0] == a[0];
      assert (a + b)[1..] == a[1..] + b;
      AllAppArgsAppend(a[1..], b, versions);
      var e := AppEntry(versions, a[0]);
      if e.Ok? && AllAppArgs(a[1..], versions).Ok? {
        PrependTwice(AppArgs(a[0], e.value), AllAppArgs(a[1..], versions).value, AllAppArgs(b, versions));
      }
    }
  }

  /** The arguments collected so far in front of the outcome for the remaining apps. */
  function Prepend(args: seq<String>, rest: Result<seq<String>, BuildError>): Result<seq<String>, BuildError> {
    if rest.Ok? then Ok(args + rest.value) else rest
  }

  /** The outcome for the apps from `i` on, unfolded by one app. */
  lemma AllAppArgsFrom(apps: seq<String>, versions: Versions, i: nat)
    requires i < |apps|
    ensures AppEntry(versions, apps[i]).Err? ==> AllAppArgs(apps[i..], versions) == Err(AppEntry(versions, apps[i]).error)
    ensures AppEntry(versions, apps[i]).Ok? ==>
      AllAppArgs(apps[i..], versions) == Prepend(AppArgs(apps[i], AppEntry(versions, apps[i]).value), AllAppArgs(apps[i + 1..], versions))
  {
    assert apps[i..][0] == apps[i];
    assert apps[i..][1..] == apps[i + 1..];
  }

  lemma PrependTwice(a: seq<String>, b: seq<String>, rest: Result<seq<String>, BuildError>)
    ensures Prepend(a, Prepend(b, rest)) == Prepend(a + b, rest)
  {
    if rest.Ok? {
      assert a + (b + rest.value) == a + b + rest.value;
    }
  }

  /** One more app's arguments collected keep the outcome for all apps the same. */
  lemma CollectStep(apps: seq<String>, versions: Versions, i: nat, args: seq<String>)
    requires i < |apps| && AppEntry(versions, apps[i]).Ok?
    requires AllAppArgs(apps, versions) == Prepend(args, AllAppArgs(apps[i..], versions))
    ensures AllAppArgs(apps, versions)
         == Prepend(args + AppArgs(apps[i], AppEntry(versions, apps[i]).value), AllAppArgs(apps[i + 1..], versions))
  {
    AllAppArgsFrom(apps, versions, i);
    PrependTwice(args, AppArgs(apps[i], AppEntry(versions, apps[i]).value), AllAppArgs(apps[i + 1..], versions));
  }

  /** Collects the apps' build arguments one app at a time, as the Go loop does. */
  method CollectAppArgs(apps: seq<String>, versions: Versions) returns (r: Result<seq<String>, BuildError>)
    ensures r == AllAppArgs(apps, versions)
  {
    var args: seq<String> := [];
    var i := 0;
    assert apps[0..] == apps;
    assert AllAppArgs(apps, versions).Ok? ==> [] + AllAppArgs(apps, versions).value == AllAppArgs(apps, versions).value;
    while i < |apps|
      invariant 0 <= i <= |apps|
      invariant AllAppArgs(apps, versions) == Prepend(args, AllAppArgs(apps[i..], versions))
    {
      var entry := AppEntry(versions, apps[i]);
      if entry.Err? {
        AllAppArgsFrom(apps, versions, i);
        return Err(entry.error);
      }
      CollectStep(apps, versions, i, args);
      args := args + AppArgs(apps[i], entry.value);
      i := i + 1;
    }
    assert apps[i..] == [];
    assert args + [] == args;
    return Ok(args);
  }

  /** getBuildArgs as a loop over the container's apps. */
  method GetBuildArgs(flags: BuildFlags, config: Models.ContainerConfig, versions: Versions, manifestTag: String)
    returns (r: Result<seq<String>, BuildError>)
    ensures r == BuildArgs(flags, config, versions, manifestTag)
  {
    var baseRef := BaseImageRef(flags.repository, versions, config.baseImage);
    if baseRef.Err? {
      return Err(baseRef.error);
    }
    var appArgs := CollectAppArgs(config.apps, versions);
    if appArgs.Err? {
      return Err(appArgs.error);
    }
    return Ok(Header(flags, config, baseRef.value, manifestTag) + appArgs.value + [config.buildContext]);
  }

  /**
   * The docker digest: `docker inspect` prints `<name>@<digest>`; the digest is the
   * text after the first '@' of the trimmed output.
   */
  function DockerDigest(output: String): (r: Result<String, BuildError>)
    ensures r.Ok? <==> Contains(TrimSpace(output), "@")
    ensures r.Ok? ==> exists name :: !Contains(name, "@") && name + "@" + r.value == TrimSpace(output)
    ensures r.Err? ==> r.error == UnrecognisedDigestOutput
  {
    match Cut(TrimSpace(output), "@")
    case None => Err(UnrecognisedDigestOutput)
    case Some((name, digest)) =>
      var t := TrimSpace(output);
      assert !Contains(name, "@") by {
        forall j | 0 <= j ensures !OccursAt(name, "@", j) {
          if OccursAt(name, "@", j) {
            assert t[j..j + 1] == name[j..j + 1];
            assert OccursAt(t, "@", j);
          }
        }
      }
      Ok(digest)
  }

  /** The digest of `<name>@<digest>` surrounded by white space is `<digest>`. */
  lemma DockerDigestOfReference(pre: String, name: String, digest: String, post: String)
    requires forall k :: 0 <= k < |pre| ==> IsSpace(pre[k])
    requires forall k :: 0 <= k < |post| ==> IsSpace(post[k])
    requires name != "" && !IsSpace(name[0]) && '@' !in name
    requires digest != "" && !IsSpace(digest[|digest| - 1])
    ensures DockerDigest(pre + name + "@" + digest + post) == Ok(digest)
  {
    var core := name + "@" + digest;
    assert core[0] == name[0] && core[|core| - 1] == digest[|digest| - 1];
    assert pre + name + "@" + digest + post == pre + core + post;
    TrimSpaceSurrounded(pre, core, post);
    assert core == name + ['@'] + digest;
    CutAtFirst(name, '@', digest);
  }

  /** The container engine: program name and arguments to standard output, or a failure. */
  type Engine = (String, seq<String>) -> Result<String, String>

  /** The commands that publish the built manifest under `target`: one push for podman, tag then push for docker. */
  function PushCommands(podman: bool, manifestTag: String, target: String): seq<(String, seq<String>)> {
    if podman then [("podman", ["push", manifestTag, target])]
    else [("docker", ["tag", manifestTag, target]), ("docker", ["push", target])]
  }

  predicate Succeeds(engine: Engine, cmd: (String, seq<String>)) {
    engine(cmd.0, cmd.1).Ok?
  }

  /** The image was published under `target`: every command for it succeeded. */
  predicate Published(engine: Engine, podman: bool, manifestTag: String, target: String) {
    forall c :: c in PushCommands(podman, manifestTag, target) ==> Succeeds(engine, c)
  }

  /**
   * Pushes the manifest under every tag in order, stopping at the first failure.
   * On success the recorded tags are the given ones and the pushed references
   * are their tagged image names, position by position.
   */
  method PushTags(engine: Engine, podman: bool, repository: String, name: String, manifestTag: String, tags: seq<String>)
    returns (r: Result<(seq<String>, seq<String>), BuildError>)
    ensures r.Ok? ==> r.value.0 == tags && |r.value.1| == |tags|
    ensures r.Ok? ==> forall i :: 0 <= i < |tags| ==> r.value.1[i] == ImageNameTag(repository, name, tags[i])
    ensures r.Ok? <==> forall i :: 0 <= i < |tags| ==> Published(engine, podman, manifestTag, ImageNameTag(repository, name, tags[i]))
    ensures r.Err? ==> r.error.EngineFailed? && r.error.step in {TagForPush, PushImage}
  {
    var recorded: seq<String> := [];
    var pushed: seq<String> := [];
    for i := 0 to |tags|
      invariant recorded == tags[..i] && |pushed| == i
      invariant forall j :: 0 <= j < i ==> pushed[j] == ImageNameTag(repository, name, tags[j])
      invariant forall j :: 0 <= j < i ==> Published(engine, podman, manifestTag, ImageNameTag(repository, name, tags[j]))
    {
      var target := ImageNameTag(repository, name, tags[i]);
      if podman {
        if engine("podman", ["push", manifestTag, target]).Err? {
          assert !Succeeds(engine, PushCommands(podman, manifestTag, target)[0]);
          return Err(EngineFailed(PushImage));
        }
      } else {
        if engine("docker", ["tag", manifestTag, target]).Err? {
          assert !Succeeds(engine, PushCommands(podman, manifestTag, target)[0]);
          return Err(EngineFailed(TagForPush));
        }
        if engine("docker", ["push", target]).Err? {
          assert !Succeeds(engine, PushCommands(podman, manifestTag, target)[1]);
          return Err(EngineFailed(PushImage));
        }
      }
      recorded := recorded + [tags[i]];
      pushed := pushed + [target];
    }
    assert tags[..|tags|] == tags;
    return Ok((recorded, pushed));
  }

  /** What the build prints: digest, image name, and the tags and references pushed. */
  datatype BuildReport = BuildReport(digest: String, imageName: String, tags: seq<String>, pushed: seq<String>)

  /** The temporary manifest tag, derived from the build time stamp. */
  function ManifestTag(flags: BuildFlags, config: Models.ContainerConfig, timestamp: String): String {
    ImageNameTag(flags.repository, config.imageName, timestamp)
  }

  function PodmanInspect(manifestTag: String): seq<String> {
    ["image", "inspect", manifestTag, "--format", "{{ .Digest }}"]
  }

  function DockerInspect(manifestTag: String): seq<String> {
    ["inspect", "--format", "{{index .RepoDigests 0}}", manifestTag]
  }

  function TagLatestArgs(flags: BuildFlags, config: Models.ContainerConfig, manifestTag: String): seq<String> {
    ["tag", manifestTag, ImageNameTag(flags.repository, config.imageName, "latest")]
  }

  /**
   * The engine steps pass: `program` builds with `args` and tags as latest, the
   * digest inspection succeeds and, for docker, is recognised, and, when pushing,
   * the image is published under every tag.
   */
  predicate EngineSucceeds(program: String, podman: bool, repository: String, imageName: String, manifestTag: String,
                           args: seq<String>, push: bool, tags: seq<String>, engine: Engine) {
    && engine(program, args).Ok?
    && engine(program, ["tag", manifestTag, ImageNameTag(repository, imageName, "latest")]).Ok?
    && (if podman then engine("podman", PodmanInspect(manifestTag)).Ok?
        else engine("docker", DockerInspect(manifestTag)).Ok? && DockerDigest(engine("docker", DockerInspect(manifestTag)).value).Ok?)
    && (push ==> forall i :: 0 <= i < |tags| ==> Published(engine, podman, manifestTag, ImageNameTag(repository, imageName, tags[i])))
  }

  /**
   * The engine half of ProcessContainer, given the resolved build arguments: build,
   * tag as latest, read the digest, then push every tag when asked to.
   */
  method RunEngine(program: String, podman: bool, repository: String, imageName: String, manifestTag: String,
                   args: seq<String>, push: bool, tags: seq<String>, engine: Engine)
    returns (r: Result<BuildReport, BuildError>)
    ensures r.Ok? <==> EngineSucceeds(program, podman, repository, imageName, manifestTag, args, push, tags, engine)
    ensures r.Ok? ==> r.value.imageName == ImageName(repository, imageName)
    ensures r.Ok? && podman ==> r.value.digest == TrimSpace(engine("podman", PodmanInspect(manifestTag)).value)
    ensures r.Ok? && !podman ==> DockerDigest(engine("docker", DockerInspect(manifestTag)).value) == Ok(r.value.digest)
    ensures r.Ok? ==> r.value.tags == (if push then tags else [])
    ensures r.Ok? ==> |r.value.pushed| == |r.value.tags|
    ensures r.Ok? ==> forall i :: 0 <= i < |r.value.tags| ==>
      r.value.pushed[i] == ImageNameTag(repository, imageName, r.value.tags[i])
      && Published(engine, podman, manifestTag, r.value.pushed[i])
  {
    if engine(program, args).Err? {
      return Err(EngineFailed(BuildImage));
    }
    if engine(program, ["tag", manifestTag, ImageNameTag(repository, imageName, "latest")]).Err? {
      return Err(EngineFailed(TagLatest));
    }
    var digest: String;
    if podman {
      var out := engine("podman", PodmanInspect(manifestTag));
      if out.Err? {
        return Err(EngineFailed(InspectDigest));
      }
      digest := TrimSpace(out.value);
    } else {
      var out := engine("docker", DockerInspect(manifestTag));
      if out.Err? {
        return Err(EngineFailed(InspectDigest));
      }
      var d := DockerDigest(out.value);
      if d.Err? {
        return Err(d.error);
      }
      digest := d.value;
    }
    var recorded: seq<String> := [];
    var pushed: seq<String> := [];
    if push {
      var p := PushTags(engine, podman, repository, imageName, manifestTag, tags);
      if p.Err? {
        return Err(p.error);
      }
      recorded, pushed := p.value.0, p.value.1;
    }
    return Ok(BuildReport(digest, ImageName(repository, imageName), recorded, pushed));
  }

  /**
   * Every step of the build goes through: the arguments resolve, the build, the
   * tag as latest and the digest inspection succeed, the digest is recognised,
   * and, when pushing, the image is published under every tag.
   */
  predicate BuildSucceeds(flags: BuildFlags, config: Models.ContainerConfig, versions: Versions, timestamp: String, engine: Engine) {
    var manifestTag := ManifestTag(flags, config, timestamp);
    var args := BuildArgs(flags, config, versions, manifestTag);
    && args.Ok?
    && EngineSucceeds(flags.platform, IsPodman(flags), flags.repository, config.imageName, manifestTag,
                      args.value, flags.push, flags.tags, engine)
  }

  /**
   * ProcessContainer after the container is loaded and validated: build, tag as
   * latest, read the digest, then push every tag when asked to.
   */
  method BuildAndPush(flags: BuildFlags, config: Models.ContainerConfig, versions: Versions, timestamp: String, engine: Engine)
    returns (r: Result<BuildReport, BuildError>)
    ensures r.Ok? <==> BuildSucceeds(flags, config, versions, timestamp, engine)
    ensures BuildArgs(flags, config, versions, ManifestTag(flags, config, timestamp)).Err? ==>
      r == Err(BuildArgs(flags, config, versions, ManifestTag(flags, config, timestamp)).error)
    ensures r.Ok? ==> BuildArgs(flags, config, versions, ManifestTag(flags, config, timestamp)).Ok?
    ensures r.Ok? ==> engine(flags.platform, BuildArgs(flags, config, versions, ManifestTag(flags, config, timestamp)).value).Ok?
    ensures r.Ok? ==> engine(flags.platform, TagLatestArgs(flags, config, ManifestTag(flags, config, timestamp))).Ok?
    ensures r.Ok? ==> r.value.imageName == ImageName(flags.repository, config.imageName)
    ensures r.Ok? && IsPodman(flags) ==>
      engine("podman", PodmanInspect(ManifestTag(flags, config, timestamp))).Ok?
      && r.value.digest == TrimSpace(engine("podman", PodmanInspect(ManifestTag(flags, config, timestamp))).value)
    ensures r.Ok? && !IsPodman(flags) ==>
      engine("docker", DockerInspect(ManifestTag(flags, config, timestamp))).Ok?
      && DockerDigest(engine("docker", DockerInspect(ManifestTag(flags, config, timestamp))).value) == Ok(r.value.digest)
    ensures r.Ok? ==> r.value.tags == (if flags.push then flags.tags else [])
    ensures r.Ok? ==> |r.value.pushed| == |r.value.tags|
    ensures r.Ok? ==> forall i :: 0 <= i < |r.value.tags| ==>
      r.value.pushed[i] == ImageNameTag(flags.repository, config.imageName, r.value.tags[i])
      && Published(engine, IsPodman(flags), ManifestTag(flags, config, timestamp), r.value.pushed[i])
  {
    var manifestTag := ManifestTag(flags, config, timestamp);
    var args := GetBuildArgs(flags, config, versions, manifestTag);
    if args.Err? {
      return Err(args.error);
    }
    r := RunEngine(flags.platform, IsPodman(flags), flags.repository, config.imageName, manifestTag,
                   args.value, flags.push, flags.tags, engine);
  }
}
