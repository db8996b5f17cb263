/**
 * The older stand-alone builder (tools/main.go). It shares the flags, the naming
 * and the versions table with the `build` command but always drives podman, and
 * it puts `--manifest <tag>` directly after `build`.
 */
module LegacyBuild {
  import opened Results
  import opened Text
  import opened VersionsFile
  import opened Build
  import Models

  /** The legacy arguments that precede the apps' build arguments. */
  function LegacyHeader(flags: BuildFlags, config: Models.ContainerConfig, baseRef: String, manifestTag: String): seq<String> {
    ["build", "--manifest", manifestTag, "--platform", PlatformValue(flags.archs),
     "--file", config.containerfile, "--build-arg", "BASE_IMAGE=" + baseRef]
  }

  /** getBuildArgs of the legacy builder: always a manifest, whatever the platform flag says. */
  function LegacyBuildArgs(flags: BuildFlags, config: Models.ContainerConfig, versions: Versions, manifestTag: String)
    : (r: Result<seq<String>, BuildError>)
    ensures r.Ok? <==> BaseImageRef(flags.repository, versions, config.baseImage).Ok? && AllAppArgs(config.apps, versions).Ok?
    ensures BaseImageRef(flags.repository, versions, config.baseImage).Err? ==>
      r == Err(BaseImageRef(flags.repository, versions, config.baseImage).error)
    ensures BaseImageRef(flags.repository, versions, config.baseImage).Ok? && AllAppArgs(config.apps, versions).Err? ==>
      r == Err(AllAppArgs(config.apps, versions).error)
    ensures r.Ok? ==> |r.value| >= 10 && r.value[..3] == ["build", "--manifest", manifestTag]
    ensures r.Ok? ==> r.value[3..9] == ["--platform", PlatformValue(flags.archs), "--file", config.containerfile,
                                         "--build-arg", "BASE_IMAGE=" + BaseImageRef(flags.repository, versions, config.baseImage).value]
    ensures r.Ok? ==> r.value[|r.value| - 1] == config.buildContext
    ensures r.Ok? ==> r.value[9..|r.value| - 1] == AllAppArgs(config.apps, versions).value
  {
    var baseRef :- BaseImageRef(flags.repository, versions, config.baseImage);
    var appArgs :- AllAppArgs(config.apps, versions);
    var args := LegacyHeader(flags, config, baseRef, manifestTag) + appArgs + [config.buildContext];
    assert args[9..|args| - 1] == appArgs;
    Ok(args)
  }

  /** getBuildArgs of the legacy builder as a loop over the container's apps. */
  method LegacyGetBuildArgs(flags: BuildFlags, config: Models.ContainerConfig, versions: Versions, manifestTag: String)
    returns (r: Result<seq<String>, BuildError>)
    ensures r == LegacyBuildArgs(flags, config, versions, manifestTag)
  {
    var baseRef := BaseImageRef(flags.repository, versions, config.baseImage);
    if baseRef.Err? {
      return Err(baseRef.error);
    }
    var appArgs := CollectAppArgs(config.apps, versions);
    if appArgs.Err? {
      return Err(appArgs.error);
    }
    return Ok(LegacyHeader(flags, config, baseRef.value, manifestTag) + appArgs.value + [config.buildContext]);
  }

  /**
   * For podman the two builders pass the same arguments, and fail alike: the
   * legacy list is the `build` command's list with `--manifest <tag>` moved to
   * just after `build`.
   */
  lemma LegacyMovesManifest(flags: BuildFlags, config: Models.ContainerConfig, versions: Versions, manifestTag: String)
    requires IsPodman(flags)
    ensures LegacyBuildArgs(flags, config, versions, manifestTag).Ok? <==> BuildArgs(flags, config, versions, manifestTag).Ok?
    ensures BuildArgs(flags, config, versions, manifestTag).Err? ==>
      LegacyBuildArgs(flags, config, versions, manifestTag) == BuildArgs(flags, config, versions, manifestTag)
    ensures BuildArgs(flags, config, versions, manifestTag).Ok? ==>
      var v := BuildArgs(flags, config, versions, manifestTag).value;
      LegacyBuildArgs(flags, config, versions, manifestTag).value == [v[0]] + v[7..9] + v[1..7] + v[9..]
    ensures BuildArgs(flags, config, versions, manifestTag).Ok? ==>
      multiset(LegacyBuildArgs(flags, config, versions, manifestTag).value) == multiset(BuildArgs(flags, config, versions, manifestTag).value)
  {
    var base := BaseImageRef(flags.repository, versions, config.baseImage);
    var apps := AllAppArgs(config.apps, versions);
    BuildArgsUnfold(flags, config, versions, manifestTag);
    LegacyBuildArgsUnfold(flags, config, versions, manifestTag);
    if base.Ok? && apps.Ok? {
      var h := Header(flags, config, base.value, manifestTag);
      var tail := apps.value + [config.buildContext];
      HeaderReordered(flags, config, base.value, manifestTag);
      MoveBlockOfConcat(h, tail);
      MoveBlockPreservesMultiset(h + tail);
    }
  }

  /** The `build` command's list in terms of its parts. */
  lemma BuildArgsUnfold(flags: BuildFlags, config: Models.ContainerConfig, versions: Versions, manifestTag: String)
    ensures var base := BaseImageRef(flags.repository, versions, config.baseImage);
            var apps := AllAppArgs(config.apps, versions);
            BuildArgs(flags, config, versions, manifestTag)
            == if base.Err? then Err(base.error) else if apps.Err? then Err(apps.error)
               else Ok(Header(flags, config, base.value, manifestTag) + (apps.value + [config.buildContext]))
  {
    var base := BaseImageRef(flags.repository, versions, config.baseImage);
    var apps := AllAppArgs(config.apps, versions);
    if base.Ok? && apps.Ok? {
      assert Header(flags, config, base.value, manifestTag) + apps.value + [config.buildContext]
          == Header(flags, config, base.value, manifestTag) + (apps.value + [config.buildContext]);
    }
  }

  /** The legacy list in terms of its parts. */
  lemma LegacyBuildArgsUnfold(flags: BuildFlags, config: Models.ContainerConfig, versions: Versions, manifestTag: String)
    ensures var base := BaseImageRef(flags.repository, versions, config.baseImage);
            var apps := AllAppArgs(config.apps, versions);
            LegacyBuildArgs(flags, config, versions, manifestTag)
            == if base.Err? then Err(base.error) else if apps.Err? then Err(apps.error)
               else Ok(LegacyHeader(flags, config, base.value, manifestTag) + (apps.value + [config.buildContext]))
  {
    var base := BaseImageRef(flags.repository, versions, config.baseImage);
    var apps := AllAppArgs(config.apps, versions);
    if base.Ok? && apps.Ok? {
      assert LegacyHeader(flags, config, base.value, manifestTag) + apps.value + [config.buildContext]
          == LegacyHeader(flags, config, base.value, manifestTag) + (apps.value + [config.buildContext]);
    }
  }

  /** With podman the legacy header is the `build` header with its last two arguments moved to the front. */
  lemma HeaderReordered(flags: BuildFlags, config: Models.ContainerConfig, baseRef: String, manifestTag: String)
    requires IsPodman(flags)
    ensures var h := Header(flags, config, baseRef, manifestTag);
            |h| == 9 && LegacyHeader(flags, config, baseRef, manifestTag) == [h[0]] + h[7..9] + h[1..7]
  {
  }

  lemma MoveBlockOfConcat<T>(h: seq<T>, tail: seq<T>)
    requires |h| == 9
    ensures var v := h + tail; [h[0]] + h[7..9] + h[1..7] + tail == [v[0]] + v[7..9] + v[1..7] + v[9..]
  {
    var v := h + tail;
    assert v[0] == h[0] && v[7..9] == h[7..9] && v[1..7] == h[1..7] && v[9..] == tail;
  }

  /** Moving the two elements at 7 and 8 to just after the first keeps the same elements. */
  lemma MoveBlockPreservesMultiset<T>(v: seq<T>)
    requires |v| >= 9
    ensures multiset([v[0]] + v[7..9] + v[1..7] + v[9..]) == multiset(v)
  {
    assert v == [v[0]] + v[1..7] + v[7..9] + v[9..];
  }

  /**
   * Every step of the legacy build goes through: the arguments resolve, podman
   * builds, tags as latest and reports the digest, and, when pushing, the image is
   * published under every tag.
   */
  predicate LegacyBuildSucceeds(flags: BuildFlags, config: Models.ContainerConfig, versions: Versions, timestamp: String, engine: Engine) {
    var manifestTag := ManifestTag(flags, config, timestamp);
    var args := LegacyBuildArgs(flags, config, versions, manifestTag);
    && args.Ok?
    && EngineSucceeds("podman", true, flags.repository, config.imageName, manifestTag, args.value, flags.push, flags.tags, engine)
  }

  /**
   * ProcessContainer of the legacy builder after loading: build, tag as latest and
   * read the digest with podman, then push every tag when asked to.
   */
  method LegacyBuildAndPush(flags: BuildFlags, config: Models.ContainerConfig, versions: Versions, timestamp: String, engine: Engine)
    returns (r: Result<BuildReport, BuildError>)
    ensures r.Ok? <==> LegacyBuildSucceeds(flags, config, versions, timestamp, engine)
    ensures LegacyBuildArgs(flags, config, versions, ManifestTag(flags, config, timestamp)).Err? ==>
      r == Err(LegacyBuildArgs(flags, config, versions, ManifestTag(flags, config, timestamp)).error)
    ensures r.Ok? ==> LegacyBuildArgs(flags, config, versions, ManifestTag(flags, config, timestamp)).Ok?
    ensures r.Ok? ==> engine("podman", LegacyBuildArgs(flags, config, versions, ManifestTag(flags, config, timestamp)).value).Ok?
    ensures r.Ok? ==> engine("podman", TagLatestArgs(flags, config, ManifestTag(flags, config, timestamp))).Ok?
    ensures r.Ok? ==> r.value.imageName == ImageName(flags.repository, config.imageName)
    ensures r.Ok? ==>
      engine("podman", PodmanInspect(ManifestTag(flags, config, timestamp))).Ok?
      && r.value.digest == TrimSpace(engine("podman", PodmanInspect(ManifestTag(flags, config, timestamp))).value)
    ensures r.Ok? ==> r.value.tags == (if flags.push then flags.tags else [])
    ensures r.Ok? ==> |r.value.pushed| == |r.value.tags|
    ensures r.Ok? ==> forall i :: 0 <= i < |r.value.tags| ==>
      r.value.pushed[i] == ImageNameTag(flags.repository, config.imageName, r.value.tags[i])
      && Published(engine, true, ManifestTag(flags, config, timestamp), r.value.pushed[i])
  {
    var manifestTag := ManifestTag(flags, config, timestamp);
    var args := LegacyGetBuildArgs(flags, config, versions, manifestTag);
    if args.Err? {
      return Err(args.error);
    }
    r := RunEngine("podman", true, flags.repository, config.imageName, manifestTag, args.value, flags.push, flags.tags, engine);
  }
}
