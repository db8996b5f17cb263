# bootc container tooling — a Dafny model

This project models the decision logic of the Go tooling that builds a family of
bootable container images. Each image is described by a `container.yaml`. Each
app it installs is described by an `app.yaml`. A top-level `config.yaml` lists
both, and a `versions.yaml` table pins base-image digests and app versions.

The model covers:

- **Configuration loading** (`Models`, `Containers`, `Apps`, `Config`). Defaults
  come first. The main document and an optional override are then decoded on top,
  as sparse patches. Containers are validated: the containerfile must exist and
  the base image and image name must be set. The listed containers and apps load
  fail-fast, and are indexed by the identifier each one declares.
- **Containerfile assembly** (`Containerfile`). Every app's builder fragments
  come first, then the container's own Containerfile, then every app's final
  fragment. Each fragment is followed by a newline.
- **The `build` command** (`Build`). This covers flag validation, image naming,
  the base-image reference and the exact `podman`/`docker` argument list. It
  also covers digest extraction and the push bookkeeping.
- **The older stand-alone builder** (`LegacyBuild`). It has its own argument
  order and always drives podman.
- **The `analyze-changes` command** (`Analyzer`). Changed paths are classified.
  Direct hits and the users of changed apps seed a set of containers. The set is
  then closed over the base-image relation.
- **The `update-versions` command** (`UpdateVersions`). It decides which base
  images and apps change, when checksum scripts run, and whether the table is
  saved.

File contents, the set of existing paths, the container engine, the registry and
the shell are inputs to the model:

- a map from path to decoded document or contents;
- a set of paths;
- oracle functions that may fail.

The time-derived manifest tag is a parameter.

## Model

| member | source | states |
|---|---|---|
| `Models.ReadRequired` | tools/models-containers.go:29-32 | a required document that is missing or undecodable is an error; otherwise its patch is what is decoded |
| `Models.ReadOptional` | tools/models-containers.go:34-39 | no override name, or an override that does not exist, decodes nothing; an override that exists but cannot be read is an error |
| `Models.ApplyAppFieldwise` | tools/models-apps.go:31-36 | decoding an app document onto an app gives every field the document's value when it sets one and the app's value otherwise; a `cmds` section keeps the scripts it does not set; the save path is kept, and an empty document changes nothing |
| `Models.ApplyContainerFieldwise` | tools/models-containers.go:29-39 | decoding a container document gives every field the document's value when it sets one and the container's value otherwise; the save path is kept |
| `Models.ApplyAppIdempotent` | tools/models-apps.go:31-36 | decoding the same app override twice gives the same app as decoding it once |
| `Models.ApplyContainerIdempotent` | tools/models-containers.go:34-39 | decoding the same container override twice changes nothing more, and an empty document changes nothing |
| `Models.ApplyConfigIdempotent` | tools/models-config.go:65-70 | decoding the same config override twice changes nothing more; base images merge key by key |
| `Containers.Validate` | tools/models-containers.go:51-74 | succeeds iff the containerfile is named, its join with the base path exists, and the base image and image name are set; the errors come in that order; on success the containerfile is joined onto the base path, the build context is resolved (`""`/`"."` become the base path), and nothing else changes |
| `Containers.LoadContainerConfig` | tools/models-containers.go:21-46 | a loaded container is valid and keeps its file name as save path; a missing main file is a not-found error; an unreadable override is an error |
| `Containers.LoadLayered` | tools/models-containers.go:21-46 | loading succeeds iff the main document decodes, the override is absent or decodes, and the layered container (override field, else main field, else the defaults `Containerfile`, `.`, no apps) validates in the main file's folder; the result is that validated container; failures name the unreadable main document, then the unreadable override, then the validation error |
| `Containers.MissingOverrideTolerated` | tools/models-containers.go:34-39 | an override that does not exist is the same as no override |
| `Containers.LoadDefaults` | tools/models-containers.go:22-28 | a document that sets only the image name and base image gets `Containerfile` in its own folder, the folder itself as build context, and no apps |
| `Containers.BuilderDefaults` | builder/container-config.go:19-52 | the builder's constructor defaults, validated against a base path, resolve to `<base>/Containerfile` and the base path itself |
| `Apps.LoadApp` | tools/models-apps.go:22-38 | succeeds iff the main document decodes and the override, if it exists, decodes; the save path is the file name; `Containerfile` is the default fragment |
| `Apps.MissingOverrideTolerated` | tools/models-apps.go:31-36 | an override that does not exist is the same as no override |
| `Apps.OverrideWins` | tools/models-apps.go:22-36 | every field is the override's value when it sets one, else the main document's, else the default (`Containerfile`, empty lists and strings); the `cmds` scripts layer the same way; the save path is the file name |
| `Apps.LoadDoesNotValidate` | tools/models-apps.go:38 | a successful load may have an empty name and an empty version |
| `Config.LoadAll` | tools/models-config.go:89-112 | loading a list succeeds iff every element loads, in order and with one result per name; a failure reports the first failing name with its error |
| `Config.IndexBy` | tools/models-config.go:89-112 | every loaded item's key is in the map; each entry is stored under its own key and is the last item with that key; the map has at most as many entries as the list |
| `Config.LoadListed` | tools/models-config.go:88-112 | containers then apps load in list order; the load succeeds iff every listed one loads, and otherwise names the first container, or else the first app, that fails; the folders, lists and save path are kept; each map holds every loaded item under its declared identifier, the last one with that identifier winning |
| `Config.WithIndexes` | tools/models-config.go:89-112 | the maps hold every loaded container under its image name and every loaded app under its app name, each entry being the last item with its key; neither map is larger than its list; every indexed container is valid; the rest of the config is kept |
| `Config.ReadMerged` | tools/models-config.go:45-70 | reading fails iff the config document is missing or unreadable or the named override exists and is unreadable, with that file's error; otherwise the save path is the joined config path, each list and folder is the override's value, else the document's, else the default (`apps`, `containers`, no lists), the base images of both documents merge with the override winning, and nothing is indexed |
| `Config.LoadEntities` | tools/models-config.go:72-115 | an empty `folders.apps` is reported before an empty `folders.containers`; the load succeeds iff both are set and every listed container and app loads from `<dir>/<name>/container.yaml` or `app.yaml`, and otherwise names the first failing container, or else app; the folders resolve against the work dir; the maps index the loaded items by image name and app name, last one winning |
| `Config.LoadConfigFile` | tools/models-config.go:45-115 | a reading error is returned as is; the load succeeds iff reading does, both folders are set and every listed container and app loads from the resolved folder; the result is the read config with resolved folders and both maps indexed by declared identifier, last one winning |
| `Config.ReadConfig` | tools/models-config.go:59-69 | a required document succeeds iff it exists and decodes, giving its patch, and is not-found when missing; an optional one fails iff it is named, exists and is unreadable, and gives no patch when not named or missing |
| `Config.DefaultConfigName` | tools/models-config.go:46-48 | an empty config name loads exactly as `config.yaml` |
| `Config.DefaultFolders` | tools/models-config.go:52-58 | when no document sets the folders, containers load from `<work dir>/containers` and apps from `<work dir>/apps` |
| `Config.FailFast` | tools/models-config.go:88-99 | with a decodable config document and no override on disk, one listed container that does not load from the containers folder the document names (or `containers`) makes the whole load fail |
| `Containerfile.FirstUnreadable` | tools/image-containerfile.go:33-35 | none iff every fragment is readable; otherwise one of the fragments, and one that cannot be read |
| `Containerfile.FirstUnreadableIsFirst` | tools/image-containerfile.go:33-35 | the fragment found is preceded only by readable fragments, so it is the first one the loop fails on |
| `Containerfile.ReadFragments` | tools/image-containerfile.go:50-58 | reads fragments in order, as the loop over the apps' final fragments and the inner loop over one app's builder fragments do, appending each one's contents and a newline; fails iff one is unreadable, naming the first such fragment |
| `Containerfile.AppBuildersFailure` | tools/image-containerfile.go:31-35 | when the earlier apps' builder fragments were all read, the first unreadable builder fragment of an app is the first unreadable one overall |
| `Containerfile.ReadBuilders` | tools/image-containerfile.go:24-39 | reads every app's builder fragments in order; fails iff one is unreadable, naming the first such fragment |
| `Containerfile.BuildContainerfile` | tools/image-containerfile.go:20-61 | the text is builders, then base, then finals, each followed by a newline; any unreadable fragment gives an error naming the first one, and no text |
| `Containerfile.ScriptLength` | tools/image-containerfile.go:36-57 | the text is as long as all fragments together plus one newline per builder fragment, one for the base and one per app |
| `Containerfile.NoApps` | tools/image-containerfile.go:42-48 | without apps the text is the base Containerfile, read from `<work dir>/containers/<name>/Containerfile`, followed by a newline |
| `Containerfile.AppWithoutBuilders` | tools/image-containerfile.go:26-28 | an app with no builder fragments adds nothing to the builder section but still adds its final fragment |
| `Containerfile.TwoAppsOrder` | tools/image-containerfile.go:25-58 | with two apps, the order is builders of the first, builders of the second, base, final of the first, final of the second |
| `Paths.FolderOfEntityFile` | tools/models-config.go:91-94 | the folder of `<dir>/<name>/<file>` is named `<name>` |
| `Build.WithLatest` | tools/cmd-build.go:94-96 | the tags contain `latest`; a list that already has it is unchanged; otherwise `latest` is appended last |
| `Build.WithLatestKeepsTags` | tools/cmd-build.go:94-96 | adding `latest` is idempotent, keeps the given tags in order as a prefix, and adds no other tag |
| `Build.ValidateFlags` | tools/cmd-build.go:76-99 | succeeds iff there is an arch, a repository, a versions file and a known platform; the errors come in that order; on success only the tags change, gaining `latest` |
| `Build.ValidateFlagsIdempotent` | tools/cmd-build.go:76-99 | validating validated flags changes nothing |
| `Build.SplitTag` | tools/cmd-build.go:105-107 | splitting a reference at its last `:` gives back the reference and a tag without `:`; there is no split iff the reference has no `:` |
| `Build.ImageNameTagSplits` | tools/cmd-build.go:105-111 | a tagged image name splits back into the image name and the tag |
| `Build.ImageNameUnderRepository` | tools/cmd-build.go:109-111 | an image name lies under `<repository>/` and its last element is the container's name |
| `Build.BaseImageRef` | tools/cmd-build.go:276-286 | an unknown base image is an error; a local image gives `<repository>/<local>:latest`; any other image gives exactly `<image>@sha256:<digest>`, which cuts back into the image and digest at its `@` when the image has none |
| `Build.PinnedCut` | tools/cmd-build.go:285 | a pinned reference cuts at its `@` back into the image and `sha256:<digest>` |
| `Build.PlatformValueSplits` | tools/cmd-build.go:289-297 | the `--platform` value splits on `,` into `linux/<arch>` for each arch, in order |
| `Build.AppEntry` | tools/cmd-build.go:311-314 | an app missing from the versions table is an error; otherwise its entry is used |
| `Build.AppArgsShape` | tools/cmd-build.go:316-328 | an app's arguments are `--build-arg` pairs; `VERSION_<APP>` appears iff the version is set and comes first; `CHECKSUMS_<APP>` appears iff the checksums are set; no values give no arguments |
| `Build.AllAppArgs` | tools/cmd-build.go:310-329 | the app arguments exist iff every app is in the versions table; they are `--build-arg` pairs; the error is that of the first failing app |
| `Build.AllAppArgsAppend` | tools/cmd-build.go:310-329 | the arguments of two app lists in a row are those of the first list followed by those of the second, and the first list's error comes first |
| `Build.AllAppArgsAt` | tools/cmd-build.go:310-329 | every app contributes exactly its own version and checksums arguments, between those of the apps before it and those of the apps after it |
| `Build.BuildArgs` | tools/cmd-build.go:274-335 | the list exists iff the base image and every app resolve, with the base-image error first and then the app error; it is `build --platform <P> --file <containerfile> --build-arg BASE_IMAGE=<ref>`, then `--manifest` (podman) or `--tag` (docker) with the manifest tag, then the app arguments, then the build context |
| `Build.CollectAppArgs` | tools/cmd-build.go:310-329 | the loop over the apps computes exactly the app arguments, or the same error |
| `Build.GetBuildArgs` | tools/cmd-build.go:274-335 | the imperative construction gives exactly the argument list above |
| `Build.DockerDigest` | tools/cmd-build.go:207-212 | succeeds iff the trimmed output contains `@`; the digest is what follows the first `@`; otherwise the output is unrecognised |
| `Build.DockerDigestOfReference` | tools/cmd-build.go:207-212 | `name@digest` surrounded by white space yields exactly the digest |
| `Build.PushTags` | tools/cmd-build.go:215-253 | pushing succeeds iff every tag is published (podman: push; docker: tag and push); the recorded tags are the flags' tags in order and the i-th pushed name is `<repository>/<name>:<tag i>`; failures are tag or push failures |
| `Build.RunEngine` | tools/cmd-build.go:169-253 | the engine steps give a report iff the build and the tag as latest succeed, the digest is read (and, for docker, recognised) and, when pushing, every tag is published; the report carries the image name, that digest, and the tags pushed with their references |
| `Build.BuildAndPush` | tools/cmd-build.go:160-254 | a report comes back iff the arguments resolve, the build, tag and inspect commands succeed, the docker digest is recognised and, when pushing, every tag is published; the digest is the trimmed podman output, or for docker the text after `@`; the recorded tags are the flags' tags when pushing and none otherwise, each one published |
| `LegacyBuild.LegacyBuildArgs` | tools/main.go:181-236 | the list exists iff the base image and every app resolve, with the base-image error first and then the app error; it is `build --manifest <tag> --platform <P> --file <containerfile> --build-arg BASE_IMAGE=<ref>`, then the app arguments, then the build context |
| `LegacyBuild.LegacyGetBuildArgs` | tools/main.go:181-236 | the imperative construction gives exactly that list |
| `LegacyBuild.LegacyMovesManifest` | tools/main.go:202-208 | for podman both builders accept and fail alike; the legacy list is the `build` command's list with `--manifest <tag>` moved right after `build`, so it holds the same arguments |
| `LegacyBuild.LegacyBuildAndPush` | tools/main.go:95-153 | as `Build.BuildAndPush`, always with podman: a report comes back iff every step succeeds |
| `Analyzer.Segment` | tools/cmd-analyze-changes.go:108-112 | the folder named after a marker is the text after the marker's first occurrence up to its next `/`, or all of it when there is none |
| `Analyzer.Classify` | tools/cmd-analyze-changes.go:93-150 | first match wins: a config-file suffix, then `/containers/`, then `/apps/`, then a Go file under `tools/`, then the workflow file, each kind iff the earlier ones do not apply and its own test does; container and app hits carry the segment after their marker |
| `Analyzer.LoadedContainerFolder` | tools/cmd-analyze-changes.go:116 | a container loaded from `<dir>/<name>/container.yaml` is found by folder `<name>` |
| `Analyzer.FindByFolder` | tools/cmd-analyze-changes.go:114-121 | the lookup finds a container stored in that folder; when the order lists every key, it finds none iff no container is |
| `Analyzer.FindByFolderUnique` | tools/cmd-analyze-changes.go:114-121 | when one container lives in the folder, the lookup finds it whatever the iteration order |
| `Analyzer.UnionOverMembers` | tools/cmd-analyze-changes.go:93-151 | what the loop over the changed paths collects is exactly what some path contributes |
| `Analyzer.DirectHitsMembers` | tools/cmd-analyze-changes.go:107-125 | a container is directly hit iff some changed path marks it |
| `Analyzer.ChangedAppsMembers` | tools/cmd-analyze-changes.go:128-138 | an app has changed iff some changed path lies in its folder |
| `Analyzer.ChainInClosed` | tools/cmd-analyze-changes.go:172-187 | a container whose base-image chain reaches a dirty container is in every closed superset |
| `Analyzer.LeastClosedIsReachable` | tools/cmd-analyze-changes.go:172-187 | the closure is exactly the containers with a base-image chain into the seed |
| `Analyzer.LeastClosedUnique` | tools/cmd-analyze-changes.go:172-187 | the closure does not depend on the iteration order |
| `Analyzer.Pass` | tools/cmd-analyze-changes.go:175-185 | one pass only adds containers; it reports a change iff it added one; without a change the set is closed; it never leaves the least closed superset |
| `Analyzer.CloseOverBaseImages` | tools/cmd-analyze-changes.go:171-187 | the fixed-point loop terminates with the least superset of the seed that contains every container built on a member |
| `Analyzer.CollectAppUsers` | tools/cmd-analyze-changes.go:160-169 | exactly the containers whose app list names a changed app |
| `Analyzer.DirectHitsAreKeys` | tools/cmd-analyze-changes.go:114-118 | in a map keyed by image name, every direct hit is a key |
| `Analyzer.UnrecognisedSeedEmpty` | tools/cmd-analyze-changes.go:93-151 | paths that are all unrecognised mark no container |
| `Analyzer.ScanChanges` | tools/cmd-analyze-changes.go:93-151 | the scan stops iff some path is a tooling or workflow change; otherwise it reports whether a config file changed, the direct hits and the changed apps |
| `Analyzer.AnalyzeChanges` | tools/cmd-analyze-changes.go:74-195 | no files, or any config, tooling or workflow change, means rebuild all with no containers; otherwise the containers are the closure of the seed; every one is a key; only unrecognised paths mean no rebuild and no containers |
| `Analyzer.RelativeContainerPathUnrecognised` | tools/cmd-analyze-changes.go:107 | `containers/c/f` is not recognised as a container change |
| `Analyzer.RelativeAppPathUnrecognised` | tools/cmd-analyze-changes.go:128 | `apps/a/f` is not recognised as an app change |
| `Analyzer.IsConfigFileRelative` | tools/cmd-analyze-changes.go:98 | a leading `/` does not change whether a path is a config file |
| `Analyzer.ClassifyRelativeContainer` | tools/cmd-analyze-changes.go:107-125 | with the corrected classification, `containers/<folder>/<rest>` marks `<folder>` |
| `Analyzer.ClassifyRelativeApp` | tools/cmd-analyze-changes.go:128-138 | with the corrected classification, `apps/<app>/<rest>` marks `<app>` |
| `Analyzer.AnalyzeRelativeChanges` | tools/cmd-analyze-changes.go:74-195 | the analysis with the corrected classification: rebuild all iff there are no files or one triggers it; otherwise the closure of the seed |
| `Analyzer.SingleContainerChange` | tools/cmd-analyze-changes.go:107-125 | with the corrected classification, one changed file in the folder of exactly one container marks that container |
| `UpdateVersions.ValidateFlags` | tools/cmd-update-versions.go:157-170 | succeeds iff there is a versions file and a known platform; the versions file is checked first |
| `UpdateVersions.CheckBaseImage` | tools/cmd-update-versions.go:51-71 | absent and local images are skipped; a remote image is looked up as `<image>:<tag>`; a lookup failure fails; the digest changes iff the registry reports a different one |
| `UpdateVersions.SkippedBaseImageNotLookedUp` | tools/cmd-update-versions.go:53-55 | skipped images are never looked up |
| `UpdateVersions.BaseImageLookedUpByReference` | tools/cmd-update-versions.go:58-61 | only the `<image>:<tag>` answer matters |
| `UpdateVersions.CheckApp` | tools/cmd-update-versions.go:74-112 | apps without a version script are skipped; a failing version script fails; the current version leaves the app unchanged; a new trimmed version is recorded iff the checksum script is absent or succeeds, and its failure fails; the checksums change only when there is a checksum script, and then to its trimmed output |
| `UpdateVersions.SkippedAppRunsNoScript` | tools/cmd-update-versions.go:76-78 | skipped apps run no script |
| `UpdateVersions.SameVersionSkipsChecksums` | tools/cmd-update-versions.go:87-93 | an unchanged version leaves the app unchanged and does not run the checksum script |
| `UpdateVersions.CheckBaseImages` | tools/cmd-update-versions.go:51-71 | the loop over the base images keeps every key, gives each entry the outcome of its own check, and records a base image as updated iff its check changed it |
| `UpdateVersions.CheckApps` | tools/cmd-update-versions.go:74-112 | the loop over the apps keeps every key, gives each entry the outcome of its own check, and records an app as updated iff its check changed it |
| `UpdateVersions.Update` | tools/cmd-update-versions.go:51-124 | the run succeeds iff no lookup or script fails, with base-image failures reported before app failures; on success each entry is the outcome of its own check, the keys are kept, an entry is reported updated iff it changed, and the file is saved iff something was updated |
| `UpdateVersions.RecheckBaseImage` | tools/cmd-update-versions.go:67-70 | checking an updated base image again finds nothing to change |
| `UpdateVersions.RecheckApp` | tools/cmd-update-versions.go:90-110 | checking an updated app again finds nothing to change |
| `UpdateVersions.UpdateSettles` | tools/cmd-update-versions.go:51-124 | a second run right after a successful one changes nothing and does not save |

## Left out

- File I/O, YAML and JSON decoding and encoding are left out. Documents are
  sparse patches and file contents are a map. `loadYamlFile`, `saveYamlFile`,
  `LoadVersions`, `Versions.Save` and the `String()` methods are not modelled.
- `filepath.Clean` and `filepath.Abs` are left out. Paths are taken as already
  clean and absolute, and `Join` only inserts separators. Because of this the
  analyzer's `filepath.Clean` of each changed path is not modelled.
- `Paths.Base` of a path ending in `/` is not Go's `filepath.Base`, which strips
  trailing separators first. Loaded save paths never end in `/`.
- `Text.ToUpper` upper-cases ASCII letters only. Go's `strings.ToUpper` is full
  Unicode.
- Subprocesses, the registry client and shell scripts are oracles that may
  fail. What they print on stderr and the context timeout are not modelled.
- Map iteration order is not modelled in `UpdateVersions.Update` or in the
  analyzer's closure. The containers map is used as a set, and the result is a
  set instead of a list. When several entries fail, `UpdateVersions.Update`
  reports the set of candidates rather than the one Go reaches first.
- The analyzer's folder lookup does depend on iteration order. It takes the
  order as a parameter (`order`).
- Error messages are not modelled. Errors are datatype values that name the
  failing step and entity.
- `Build.ImageName` does not clean the joined path as Go's `path.Join` does
  (collapsing `//`, `.` and `..`). Repository and container names are taken as
  already clean.
- A versions-table entry with a nil pointer would make `getBuildArgs`
  dereference nil. `Build.BaseImageRef` and `Build.AppEntry` report it as the
  `EmptyEntry` error instead.
- The timestamp of the manifest tag is a parameter. `time.Now()` is not
  modelled.
- The first half of `ProcessContainer` in tools/cmd-build.go (lines 113-156) and
  in tools/main.go is not modelled. That half covers the empty-path check,
  `filepath.Abs` and reading the container documents. The loaders in
  `Containers` model its defaults, override and validation.
- Printing the build report, the analysis result and progress messages is left
  out.
- The `analyzeChangesFlags.Validate` check for an empty `--work-dir`, cobra
  wiring and tools/flags.go are left out, because they are command-line
  parsing.
- builder/main.go is not part of this model: its `ProcessContainer` is
  pull/build/push plumbing. Its `ContainerConfig.Validate` in
  builder/container-config.go is identical to the one in
  tools/models-containers.go, and is modelled once as `Containers.Validate`.
- `LegacyBuild` takes the same flags record as `Build`. tools/main.go reads a
  package-level `flags` value with the same fields.
- Described behaviour that the code does not have is not modelled. There is no
  sibling-container lookup for base images and no `default` token. There is no
  cycle detection, and the fixed point terminates anyway. The docker digest is
  read before pushing, not after.
- `Analyzer.AnalyzeChanges` is stated for any classification function. It
  holds for `Analyzer.Classify` as written, and `Analyzer.AnalyzeRelativeChanges`
  applies it to the corrected `Analyzer.ClassifyRelative`.

## Findings

| source | as written | input that shows it | evidently intended | confidence | as-written member | corrected member |
|---|---|---|---|---|---|---|
| tools/cmd-analyze-changes.go:107,128 | a path is a container or app change only if it contains `/containers/` or `/apps/`, with a leading slash | the changed path `containers/base-os/Containerfile`, relative to the work dir, is classified as unrecognised, and so is `apps/x/app.yaml`; a change to a container alone then rebuilds nothing | paths relative to the work dir mark the container folder or app they lie in | not executed | `Analyzer.RelativeContainerPathUnrecognised`, `Analyzer.RelativeAppPathUnrecognised` (about `Analyzer.Classify`) | `Analyzer.ClassifyRelative`, with `Analyzer.ClassifyRelativeContainer` and `Analyzer.ClassifyRelativeApp` |
