/**
 * The configuration entities (apps, containers, the top-level config file) and the
 * sparse patches their YAML documents decode to. Decoding a document onto an
 * already-populated value overwrites exactly the fields the document sets: a field
 * present with an empty value still overwrites, lists are replaced as a whole, the
 * `baseImages` mapping is merged key by key, and the `cmds` block is decoded into
 * the existing block.
 */
module Models {
  import opened Results
  import opened Text

  datatype AppCmds = AppCmds(updateVersion: String, updateChecksums: String)

  datatype App = App(
    name: String,
    containerfile: String,
    builderContainerfiles: seq<String>,
    version: String,
    checksums: String,
    cmds: Option<AppCmds>,
    ignoredVersions: seq<String>,
    savePath: String)

  datatype ContainerConfig = ContainerConfig(
    containerfile: String,
    buildContext: String,
    imageName: String,
    baseImage: String,
    apps: seq<String>,
    savePath: String)

  datatype ConfigBaseImage = ConfigBaseImage(image: String, tag: String, digest: String)

  /** `apps`/`containers` as written; `appsDir`/`containersDir` as resolved against the work dir. */
  datatype Folders = Folders(apps: String, containers: String, appsDir: String, containersDir: String)

  datatype ConfigFile = ConfigFile(
    baseImages: map<String, ConfigBaseImage>,
    folders: Folders,
    containers: seq<String>,
    apps: seq<String>,
    savePath: String,
    containersMap: map<String, ContainerConfig>,
    appsMap: map<String, App>)

  // Sparse patches: `Some` for every field the document sets.

  datatype CmdsPatch = CmdsPatch(updateVersion: Option<String>, updateChecksums: Option<String>)

  datatype AppPatch = AppPatch(
    name: Option<String>,
    containerfile: Option<String>,
    builderContainerfiles: Option<seq<String>>,
    version: Option<String>,
    checksums: Option<String>,
    cmds: Option<CmdsPatch>,
    ignoredVersions: Option<seq<String>>)

  datatype ContainerPatch = ContainerPatch(
    containerfile: Option<String>,
    buildContext: Option<String>,
    imageName: Option<String>,
    baseImage: Option<String>,
    apps: Option<seq<String>>)

  datatype FoldersPatch = FoldersPatch(apps: Option<String>, containers: Option<String>)

  datatype ConfigPatch = ConfigPatch(
    baseImages: Option<map<String, ConfigBaseImage>>,
    folders: Option<FoldersPatch>,
    containers: Option<seq<String>>,
    apps: Option<seq<String>>)

  /** A file on disk as the loaders see it: decodable, or failing to open or decode. */
  datatype Doc<P> = Decoded(patch: P) | Unreadable

  datatype LoadError =
    | FileNotFound(path: String)
    | FileUnreadable(path: String)

  function Pick<T>(field: Option<T>, current: T): T {
    if field.Some? then field.value else current
  }

  function ApplyCmds(current: Option<AppCmds>, p: CmdsPatch): AppCmds {
    var c := if current.Some? then current.value else AppCmds("", "");
    AppCmds(Pick(p.updateVersion, c.updateVersion), Pick(p.updateChecksums, c.updateChecksums))
  }

  function ApplyApp(a: App, p: AppPatch): App {
    App(
      Pick(p.name, a.name),
      Pick(p.containerfile, a.containerfile),
      Pick(p.builderContainerfiles, a.builderContainerfiles),
      Pick(p.version, a.version),
      Pick(p.checksums, a.checksums),
      if p.cmds.Some? then Some(ApplyCmds(a.cmds, p.cmds.value)) else a.cmds,
      Pick(p.ignoredVersions, a.ignoredVersions),
      a.savePath)
  }

  function ApplyContainer(c: ContainerConfig, p: ContainerPatch): ContainerConfig {
    ContainerConfig(
      Pick(p.containerfile, c.containerfile),
      Pick(p.buildContext, c.buildContext),
      Pick(p.imageName, c.imageName),
      Pick(p.baseImage, c.baseImage),
      Pick(p.apps, c.apps),
      c.savePath)
  }

  function ApplyFolders(f: Folders, p: FoldersPatch): Folders {
    f.(apps := Pick(p.apps, f.apps), containers := Pick(p.containers, f.containers))
  }

  function ApplyConfig(c: ConfigFile, p: ConfigPatch): ConfigFile {
    c.(
      baseImages := if p.baseImages.Some? then c.baseImages + p.baseImages.value else c.baseImages,
      folders := if p.folders.Some? then ApplyFolders(c.folders, p.folders.value) else c.folders,
      containers := Pick(p.containers, c.containers),
      apps := Pick(p.apps, c.apps))
  }

  /** The containers map is keyed by the image name each container declares. */
  predicate ContainersIndexed(m: map<String, ContainerConfig>) {
    forall k :: k in m ==> m[k].imageName == k
  }

  /**
   * The patch an optional document contributes: its own when it is named, exists
   * and decodes, and `none` otherwise.
   */
  function OptionalPatch<P>(docs: map<String, Doc<P>>, path: String, none: P): P {
    if path != "" && path in docs && docs[path].Decoded? then docs[path].patch else none
  }

  /** An empty document changes nothing. */
  const NoContainerChange := ContainerPatch(None, None, None, None, None)
  const NoAppChange := AppPatch(None, None, None, None, None, None, None)
  const NoConfigChange := ConfigPatch(None, None, None, None)

  /**
   * Decoding an override onto an app: every field the override sets takes the
   * override's value, every other field (and the save path) keeps the base value;
   * a `cmds` block is decoded into the existing block, field by field.
   */
  lemma ApplyAppFieldwise(a: App, p: AppPatch)
    ensures ApplyApp(a, p).name == Pick(p.name, a.name)
    ensures ApplyApp(a, p).containerfile == Pick(p.containerfile, a.containerfile)
    ensures ApplyApp(a, p).builderContainerfiles == Pick(p.builderContainerfiles, a.builderContainerfiles)
    ensures ApplyApp(a, p).version == Pick(p.version, a.version)
    ensures ApplyApp(a, p).checksums == Pick(p.checksums, a.checksums)
    ensures ApplyApp(a, p).ignoredVersions == Pick(p.ignoredVersions, a.ignoredVersions)
    ensures p.cmds.None? ==> ApplyApp(a, p).cmds == a.cmds
    ensures p.cmds.Some? ==> ApplyApp(a, p).cmds.Some?
    ensures p.cmds.Some? ==> ApplyApp(a, p).cmds.value.updateVersion
                             == Pick(p.cmds.value.updateVersion, if a.cmds.Some? then a.cmds.value.updateVersion else "")
    ensures p.cmds.Some? ==> ApplyApp(a, p).cmds.value.updateChecksums
                             == Pick(p.cmds.value.updateChecksums, if a.cmds.Some? then a.cmds.value.updateChecksums else "")
    ensures ApplyApp(a, p).savePath == a.savePath
    ensures ApplyApp(a, NoAppChange) == a
  {
  }

  /** Decoding an override onto a container: the same rule, field by field. */
  lemma ApplyContainerFieldwise(c: ContainerConfig, p: ContainerPatch)
    ensures ApplyContainer(c, p).containerfile == Pick(p.containerfile, c.containerfile)
    ensures ApplyContainer(c, p).buildContext == Pick(p.buildContext, c.buildContext)
    ensures ApplyContainer(c, p).imageName == Pick(p.imageName, c.imageName)
    ensures ApplyContainer(c, p).baseImage == Pick(p.baseImage, c.baseImage)
    ensures ApplyContainer(c, p).apps == Pick(p.apps, c.apps)
    ensures ApplyContainer(c, p).savePath == c.savePath
  {
  }

  /** Merging the same override twice yields the same app as merging it once. */
  lemma ApplyAppIdempotent(a: App, p: AppPatch)
    ensures ApplyApp(ApplyApp(a, p), p) == ApplyApp(a, p)
  {
  }

  /** Merging the same override twice yields the same container as merging it once. */
  lemma ApplyContainerIdempotent(c: ContainerConfig, p: ContainerPatch)
    ensures ApplyContainer(ApplyContainer(c, p), p) == ApplyContainer(c, p)
    ensures ApplyContainer(c, NoContainerChange) == c
  {
  }

  /**
   * Merging the same config override twice yields the same config as merging it
   * once; base images named by the override take its entry, the others keep theirs.
   */
  lemma ApplyConfigIdempotent(c: ConfigFile, p: ConfigPatch)
    ensures ApplyConfig(ApplyConfig(c, p), p) == ApplyConfig(c, p)
    ensures p.baseImages.Some? ==>
      ApplyConfig(c, p).baseImages.Keys == c.baseImages.Keys + p.baseImages.value.Keys
    ensures p.baseImages.Some? ==> forall k :: k in p.baseImages.value ==>
      ApplyConfig(c, p).baseImages[k] == p.baseImages.value[k]
    ensures forall k :: k in c.baseImages && (p.baseImages.None? || k !in p.baseImages.value) ==>
      ApplyConfig(c, p).baseImages[k] == c.baseImages[k]
  {
    if p.baseImages.Some? {
      var m := c.baseImages + p.baseImages.value;
      assert m + p.baseImages.value == m;
    }
  }

  /** Reads a required document: a missing or undecodable file is an error. */
  function ReadRequired<P>(docs: map<String, Doc<P>>, path: String): (r: Result<P, LoadError>)
    ensures r.Ok? <==> path in docs && docs[path].Decoded?
    ensures r.Ok? ==> r.value == docs[path].patch
    ensures path !in docs ==> r == Err(FileNotFound(path))
  {
    if path !in docs then Err(FileNotFound(path))
    else if docs[path].Unreadable? then Err(FileUnreadable(path))
    else Ok(docs[path].patch)
  }

  /**
   * Reads an optional override: no name, or a file that does not exist, yields
   * no patch; a file that exists but cannot be read or decoded is an error.
   */
  function ReadOptional<P>(docs: map<String, Doc<P>>, path: String): (r: Result<Option<P>, LoadError>)
    ensures r.Err? <==> path != "" && path in docs && docs[path].Unreadable?
    ensures r.Ok? && r.value.Some? ==> path in docs && docs[path] == Decoded(r.value.value)
    ensures path == "" || path !in docs ==> r == Ok(None)
  {
    if path == "" || path !in docs then Ok(None)
    else if docs[path].Unreadable? then Err(FileUnreadable(path))
    else Ok(Some(docs[path].patch))
  }
}
