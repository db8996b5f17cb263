/**
 * LoadConfigFile: the top-level config with its override, the folder checks, and
 * the loading of every listed container and app into maps keyed by the identifier
 * each one declares.
 */
module Config {
  import opened Results
  import opened Text
  import opened Paths
  import opened Models
  import Containers
  import Apps

  /** Everything the loader reads from disk. */
  datatype Disk = Disk(
    configDocs: map<String, Doc<ConfigPatch>>,
    containerDocs: map<String, Doc<ContainerPatch>>,
    appDocs: map<String, Doc<AppPatch>>,
    existing: set<String>)

  datatype ConfigError =
    | ConfigLoadFailed(cause: LoadError)
    | AppsFolderRequired
    | ContainersFolderRequired
    | ContainerFailed(container: String, reason: Containers.ContainerError)
    | AppFailed(app: String, cause: LoadError)

  /**
   * Loads every name in order and stops at the first failure, reporting the name
   * that failed with its error.
   */
  function {:induction false} LoadAll<T, E>(names: seq<String>, load: String -> Result<T, E>): (r: Result<seq<T>, (String, E)>)
    ensures r.Ok? <==> AllLoad(names, load)
    ensures r.Ok? ==> |r.value| == |names| && forall i :: 0 <= i < |names| ==> r.value[i] == load(names[i]).value
    ensures r.Err? ==> exists i :: 0 <= i < |names| && load(names[i]).Err? && r.error == (names[i], load(names[i]).error)
                                   && forall j :: 0 <= j < i ==> load(names[j]).Ok?
    decreases |names|
  {
    if |names| == 0 then Ok([])
    else
      match load(names[0])
      case Err(e) => Err((names[0], e))
      case Ok(x) =>
        match LoadAll(names[1..], load)
        case Err(e) =>
          ghost var i :| 0 <= i < |names[1..]| && load(names[1..][i]).Err? && e == (names[1..][i], load(names[1..][i]).error)
                         && forall j :: 0 <= j < i ==> load(names[1..][j]).Ok?;
          assert names[i + 1] == names[1..][i];
          assert forall j :: 0 <= j < i + 1 ==> load(names[j]).Ok? by {
            forall j | 0 <= j < i + 1 ensures load(names[j]).Ok? {
              if j > 0 {
                assert names[j] == names[1..][j - 1];
              }
            }
          }
          Err(e)
        case Ok(xs) =>
          assert forall i :: 1 <= i < |names| ==> names[i] == names[1..][i - 1];
          Ok([x] + xs)
  }

  /** Every name loads. */
  predicate AllLoad<T, E>(names: seq<String>, load: String -> Result<T, E>) {
    forall i :: 0 <= i < |names| ==> load(names[i]).Ok?
  }

  /** `name` is the first listed name that does not load. */
  ghost predicate FirstFailing<T, E>(names: seq<String>, load: String -> Result<T, E>, name: String) {
    exists i :: 0 <= i < |names| && names[i] == name && load(names[i]).Err? && forall j :: 0 <= j < i ==> load(names[j]).Ok?
  }

  /**
   * `m` indexes `items` by `key`: every item's key is in the map, and each entry is
   * the last item with its key.
   */
  ghost predicate IndexOf<T>(m: map<String, T>, items: seq<T>, key: T -> String) {
    && (forall i :: 0 <= i < |items| ==> key(items[i]) in m)
    && (forall k :: k in m ==> LastWithKey(items, key, k, m[k]))
  }

  /**
   * A map from the key each item declares to the item; a later item with the same
   * key replaces an earlier one.
   */
  function {:induction false} IndexBy<T>(items: seq<T>, key: T -> String): (m: map<String, T>)
    ensures IndexOf(m, items, key)
    ensures |m| <= |items|
    ensures forall k :: k in m ==> key(m[k]) == k
    decreases |items|
  {
    if |items| == 0 then map[]
    else
      var init := items[..|items| - 1];
      var last := items[|items| - 1];
      var m := IndexBy(init, key);
      IndexStep(init, last, key, m);
      assert items == init + [last];
      m[key(last) := last]
  }

  /** `x` is an item with key `k` and no later item has key `k`. */
  ghost predicate LastWithKey<T>(items: seq<T>, key: T -> String, k: String, x: T) {
    exists i :: 0 <= i < |items| && items[i] == x && key(x) == k && forall j :: i < j < |items| ==> key(items[j]) != k
  }

  lemma IndexStep<T>(init: seq<T>, last: T, key: T -> String, m: map<String, T>)
    requires IndexOf(m, init, key)
    requires |m| <= |init|
    requires forall k :: k in m ==> key(m[k]) == k
    ensures var items := init + [last]; var m' := m[key(last) := last];
      && IndexOf(m', items, key)
      && |m'| <= |items|
      && (forall k :: k in m' ==> key(m'[k]) == k)
  {
    var items := init + [last];
    var m' := m[key(last) := last];
    forall i | 0 <= i < |items| ensures key(items[i]) in m' {
      if i < |init| {
        assert items[i] == init[i];
      }
    }
    assert m'.Keys == m.Keys + {key(last)};
    assert |m'.Keys| <= |m.Keys| + 1;
    forall k | k in m' ensures LastWithKey(items, key, k, m'[k]) {
      if k == key(last) {
        assert items[|items| - 1] == last;
      } else {
        LastWithKeyKept(init, last, key, k, m[k]);
      }
    }
  }

  /** Appending an item with another key keeps the last item with key `k`. */
  lemma LastWithKeyKept<T>(init: seq<T>, last: T, key: T -> String, k: String, x: T)
    requires LastWithKey(init, key, k, x)
    requires key(last) != k
    ensures LastWithKey(init + [last], key, k, x)
  {
    var items := init + [last];
    var i :| 0 <= i < |init| && init[i] == x && key(x) == k && forall j :: i < j < |init| ==> key(init[j]) != k;
    assert items[i] == x;
    forall j | i < j < |items| ensures key(items[j]) != k {
      if j < |init| {
        assert items[j] == init[j];
      }
    }
  }

  function ContainerFile(containersDir: String, name: String): String {
    Join3(containersDir, name, "container.yaml")
  }

  function ContainerOverrideFile(containersDir: String, name: String): String {
    Join3(containersDir, name, "container.override.yaml")
  }

  function AppFile(appsDir: String, name: String): String {
    Join3(appsDir, name, "app.yaml")
  }

  function AppOverrideFile(appsDir: String, name: String): String {
    Join3(appsDir, name, "app.override.yaml")
  }


  /** Loading the container listed as `name` from its folder. */
  function LoadContainerAt(containersDir: String, disk: Disk, name: String): Result<ContainerConfig, Containers.ContainerError> {
    Containers.LoadContainerConfig(ContainerFile(containersDir, name), ContainerOverrideFile(containersDir, name),
                                   disk.containerDocs, disk.existing)
  }

  /** Loading the app listed as `name` from its folder. */
  function LoadAppAt(appsDir: String, disk: Disk, name: String): Result<App, LoadError> {
    Apps.LoadApp(AppFile(appsDir, name), AppOverrideFile(appsDir, name), disk.appDocs)
  }

  function ContainerLoader(containersDir: String, disk: Disk): String -> Result<ContainerConfig, Containers.ContainerError> {
    n => LoadContainerAt(containersDir, disk, n)
  }

  function AppLoader(appsDir: String, disk: Disk): String -> Result<App, LoadError> {
    n => LoadAppAt(appsDir, disk, n)
  }

  /** The identifiers the two maps are keyed by. */
  function ImageNameOf(c: ContainerConfig): String {
    c.imageName
  }

  function AppNameOf(a: App): String {
    a.name
  }

  /** Every container the loader yields is valid. */
  lemma ContainerLoaderValid(containersDir: String, disk: Disk)
    ensures forall n :: ContainerLoader(containersDir, disk)(n).Ok? ==>
      Containers.Valid(ContainerLoader(containersDir, disk)(n).value, disk.existing)
  {
  }

  /** The config before any document is decoded onto it. */
  function Defaults(savePath: String): ConfigFile {
    ConfigFile(map[], Folders("apps", "containers", "", ""), [], [], savePath, map[], map[])
  }

  /** Both maps are keyed by the identifier each entry declares, and every indexed container is valid. */
  predicate Indexed(c: ConfigFile, existing: set<String>) {
    && ContainersIndexed(c.containersMap)
    && (forall k :: k in c.containersMap ==> Containers.Valid(c.containersMap[k], existing))
    && (forall k :: k in c.appsMap ==> c.appsMap[k].name == k)
  }

  /** The config document's path: `config.yaml` when no name is given. */
  function ConfigPath(workDir: String, configFileName: String): String {
    Join(workDir, if configFileName == "" then "config.yaml" else configFileName)
  }

  /** The override's path, or none. */
  function OverridePath(workDir: String, overrideFileName: String): String {
    if overrideFileName == "" then "" else Join(workDir, overrideFileName)
  }

  /** The `folders.apps` value after decoding `p` onto `current`. */
  function AppsFolderAfter(p: ConfigPatch, current: String): String {
    if p.folders.Some? then Pick(p.folders.value.apps, current) else current
  }

  /** The `folders.containers` value after decoding `p` onto `current`. */
  function ContainersFolderAfter(p: ConfigPatch, current: String): String {
    if p.folders.Some? then Pick(p.folders.value.containers, current) else current
  }

  /** The base images a document names. */
  function ImagesOf(p: ConfigPatch): map<String, ConfigBaseImage> {
    if p.baseImages.Some? then p.baseImages.value else map[]
  }

  /**
   * The config file with its override decoded onto the defaults. It fails iff the
   * config document is missing or unreadable, or the override exists and is
   * unreadable; otherwise each field is the override's value when it sets one,
   * else the config document's, else the default, and the base images of both
   * are merged with the override's entry winning.
   */
  function ReadMerged(workDir: String, configFileName: String, overrideFileName: String, disk: Disk): (r: Result<ConfigFile, ConfigError>)
    ensures var path := ConfigPath(workDir, configFileName);
            var over := OverridePath(workDir, overrideFileName);
            r.Ok? <==> path in disk.configDocs && disk.configDocs[path].Decoded?
                       && (over == "" || over !in disk.configDocs || disk.configDocs[over].Decoded?)
    ensures var path := ConfigPath(workDir, configFileName);
            path !in disk.configDocs ==> r == Err(ConfigLoadFailed(FileNotFound(path)))
    ensures var path := ConfigPath(workDir, configFileName);
            path in disk.configDocs && disk.configDocs[path].Unreadable? ==> r == Err(ConfigLoadFailed(FileUnreadable(path)))
    ensures var path := ConfigPath(workDir, configFileName);
            var over := OverridePath(workDir, overrideFileName);
            (path in disk.configDocs && disk.configDocs[path].Decoded? && over != "" && over in disk.configDocs
             && disk.configDocs[over].Unreadable?) ==> r == Err(ConfigLoadFailed(FileUnreadable(over)))
    ensures r.Ok? ==>
      var b := disk.configDocs[ConfigPath(workDir, configFileName)].patch;
      var o := OptionalPatch(disk.configDocs, OverridePath(workDir, overrideFileName), NoConfigChange);
      && r.value.savePath == ConfigPath(workDir, configFileName)
      && r.value.containers == Pick(o.containers, Pick(b.containers, []))
      && r.value.apps == Pick(o.apps, Pick(b.apps, []))
      && r.value.folders == Folders(AppsFolderAfter(o, AppsFolderAfter(b, "apps")),
                                    ContainersFolderAfter(o, ContainersFolderAfter(b, "containers")), "", "")
      && r.value.baseImages == ImagesOf(b) + ImagesOf(o)
      && r.value.containersMap == map[] && r.value.appsMap == map[]
  {
    var path := ConfigPath(workDir, configFileName);
    var base :- ReadConfig(disk, path, true);
    var over :- ReadConfig(disk, OverridePath(workDir, overrideFileName), false);
    var c := ApplyConfig(Defaults(path), base.value);
    assert ImagesOf(base.value) == map[] + ImagesOf(base.value);
    if over.Some? then
      assert c.baseImages + ImagesOf(over.value) == ImagesOf(base.value) + ImagesOf(over.value);
      Ok(ApplyConfig(c, over.value))
    else
      assert ImagesOf(base.value) + ImagesOf(NoConfigChange) == ImagesOf(base.value);
      Ok(c)
  }

  /**
   * The second half of LoadConfigFile: `folders.apps` is checked before
   * `folders.containers`, then containers and apps are loaded in list order,
   * failing on the first one that does not load, and indexed by the identifier
   * each declares.
   */
  function LoadEntities(c: ConfigFile, workDir: String, disk: Disk): (r: Result<ConfigFile, ConfigError>)
    ensures c.folders.apps == "" ==> r == Err(AppsFolderRequired)
    ensures c.folders.apps != "" && c.folders.containers == "" ==> r == Err(ContainersFolderRequired)
    ensures r.Ok? <==> && c.folders.apps != "" && c.folders.containers != ""
                       && AllLoad(c.containers, ContainerLoader(Join(workDir, c.folders.containers), disk))
                       && AllLoad(c.apps, AppLoader(Join(workDir, c.folders.apps), disk))
    ensures c.folders.apps != "" && c.folders.containers != ""
            && !AllLoad(c.containers, ContainerLoader(Join(workDir, c.folders.containers), disk)) ==>
      r.Err? && r.error.ContainerFailed?
      && FirstFailing(c.containers, ContainerLoader(Join(workDir, c.folders.containers), disk), r.error.container)
    ensures c.folders.apps != "" && c.folders.containers != ""
            && AllLoad(c.containers, ContainerLoader(Join(workDir, c.folders.containers), disk))
            && !AllLoad(c.apps, AppLoader(Join(workDir, c.folders.apps), disk)) ==>
      r.Err? && r.error.AppFailed? && FirstFailing(c.apps, AppLoader(Join(workDir, c.folders.apps), disk), r.error.app)
    ensures r.Ok? ==> r.value.folders == c.folders.(appsDir := Join(workDir, c.folders.apps),
                                                    containersDir := Join(workDir, c.folders.containers))
    ensures r.Ok? ==> r.value.(folders := c.folders, containersMap := map[], appsMap := map[])
                      == c.(containersMap := map[], appsMap := map[])
    ensures r.Ok? ==> Indexed(r.value, disk.existing)
    ensures r.Ok? ==> IndexOf(r.value.containersMap, LoadAll(c.containers, ContainerLoader(r.value.folders.containersDir, disk)).value, ImageNameOf)
    ensures r.Ok? ==> IndexOf(r.value.appsMap, LoadAll(c.apps, AppLoader(r.value.folders.appsDir, disk)).value, AppNameOf)
  {
    if c.folders.apps == "" then Err(AppsFolderRequired)
    else
      var appsDir := Join(workDir, c.folders.apps);
      if c.folders.containers == "" then Err(ContainersFolderRequired)
      else
        var containersDir := Join(workDir, c.folders.containers);
        ContainerLoaderValid(containersDir, disk);
        LoadListed(c, appsDir, containersDir, ContainerLoader(containersDir, disk), AppLoader(appsDir, disk), disk.existing)
  }

  /**
   * Loads the listed containers, then the listed apps, with the given loaders,
   * failing on the first one that does not load, and indexes them.
   */
  function LoadListed(c: ConfigFile, appsDir: String, containersDir: String,
                      loadContainer: String -> Result<ContainerConfig, Containers.ContainerError>,
                      loadApp: String -> Result<App, LoadError>, existing: set<String>): (r: Result<ConfigFile, ConfigError>)
    requires forall n :: loadContainer(n).Ok? ==> Containers.Valid(loadContainer(n).value, existing)
    ensures r.Ok? <==> AllLoad(c.containers, loadContainer) && AllLoad(c.apps, loadApp)
    ensures !AllLoad(c.containers, loadContainer) ==>
      r.Err? && r.error.ContainerFailed? && FirstFailing(c.containers, loadContainer, r.error.container)
    ensures AllLoad(c.containers, loadContainer) && !AllLoad(c.apps, loadApp) ==>
      r.Err? && r.error.AppFailed? && FirstFailing(c.apps, loadApp, r.error.app)
    ensures r.Ok? ==> r.value.folders == c.folders.(appsDir := appsDir, containersDir := containersDir)
    ensures r.Ok? ==> r.value.(folders := c.folders, containersMap := map[], appsMap := map[])
                      == c.(containersMap := map[], appsMap := map[])
    ensures r.Ok? ==> Indexed(r.value, existing)
    ensures r.Ok? ==> IndexOf(r.value.containersMap, LoadAll(c.containers, loadContainer).value, ImageNameOf)
    ensures r.Ok? ==> IndexOf(r.value.appsMap, LoadAll(c.apps, loadApp).value, AppNameOf)
  {
    match LoadAll(c.containers, loadContainer)
    case Err(e) => Err(ContainerFailed(e.0, e.1))
    case Ok(containers) =>
      match LoadAll(c.apps, loadApp)
      case Err(e) => Err(AppFailed(e.0, e.1))
      case Ok(apps) =>
        Ok(WithIndexes(c, existing, appsDir, containersDir, containers, apps))
  }

  /**
   * The config with its resolved folders and the loaded containers and apps
   * indexed by the identifier each declares.
   */
  function WithIndexes(c: ConfigFile, existing: set<String>, appsDir: String, containersDir: String,
                       containers: seq<ContainerConfig>, apps: seq<App>): (r: ConfigFile)
    requires forall i :: 0 <= i < |containers| ==> Containers.Valid(containers[i], existing)
    ensures r.folders == c.folders.(appsDir := appsDir, containersDir := containersDir)
    ensures r.(folders := c.folders, containersMap := map[], appsMap := map[]) == c.(containersMap := map[], appsMap := map[])
    ensures Indexed(r, existing)
    ensures IndexOf(r.containersMap, containers, ImageNameOf) && IndexOf(r.appsMap, apps, AppNameOf)
    ensures |r.containersMap| <= |containers| && |r.appsMap| <= |apps|
  {
    var cmap := IndexBy(containers, ImageNameOf);
    forall k | k in cmap ensures Containers.Valid(cmap[k], existing) {
      assert LastWithKey(containers, ImageNameOf, k, cmap[k]);
    }
    c.(folders := c.folders.(appsDir := appsDir, containersDir := containersDir),
       containersMap := cmap,
       appsMap := IndexBy(apps, AppNameOf))
  }

  /**
   * LoadConfigFile: reads and merges the config documents, checks the folders,
   * then loads and indexes what they list. It fails with the first error met in
   * that order; on success the listed containers and apps all load, and the maps
   * index them by image name and app name, a later entry replacing an earlier one.
   */
  function LoadConfigFile(workDir: String, configFileName: String, overrideFileName: String, disk: Disk): (r: Result<ConfigFile, ConfigError>)
    ensures var m := ReadMerged(workDir, configFileName, overrideFileName, disk);
            m.Err? ==> r == Err(m.error)
    ensures var m := ReadMerged(workDir, configFileName, overrideFileName, disk);
            r.Ok? <==> && m.Ok? && m.value.folders.apps != "" && m.value.folders.containers != ""
                       && AllLoad(m.value.containers, ContainerLoader(Join(workDir, m.value.folders.containers), disk))
                       && AllLoad(m.value.apps, AppLoader(Join(workDir, m.value.folders.apps), disk))
    ensures var m := ReadMerged(workDir, configFileName, overrideFileName, disk);
            r.Ok? ==> && r.value.(folders := m.value.folders, containersMap := map[], appsMap := map[]) == m.value
                      && r.value.folders.appsDir == Join(workDir, m.value.folders.apps)
                      && r.value.folders.containersDir == Join(workDir, m.value.folders.containers)
    ensures r.Ok? ==> Indexed(r.value, disk.existing)
    ensures r.Ok? ==> IndexOf(r.value.containersMap,
                              LoadAll(r.value.containers, ContainerLoader(r.value.folders.containersDir, disk)).value, ImageNameOf)
    ensures r.Ok? ==> IndexOf(r.value.appsMap, LoadAll(r.value.apps, AppLoader(r.value.folders.appsDir, disk)).value, AppNameOf)
  {
    var c :- ReadMerged(workDir, configFileName, overrideFileName, disk);
    LoadEntities(c, workDir, disk)
  }

  /**
   * Reads the config document at `path`. A required document must exist and
   * decode; an optional one that is not named or does not exist yields no patch.
   */
  function ReadConfig(disk: Disk, path: String, required: bool): (r: Result<Option<ConfigPatch>, ConfigError>)
    ensures required ==> (r.Ok? <==> path in disk.configDocs && disk.configDocs[path].Decoded?)
    ensures required && r.Ok? ==> r.value == Some(disk.configDocs[path].patch)
    ensures required && path !in disk.configDocs ==> r == Err(ConfigLoadFailed(FileNotFound(path)))
    ensures !required ==> (r.Err? <==> path != "" && path in disk.configDocs && disk.configDocs[path].Unreadable?)
    ensures !required && (path == "" || path !in disk.configDocs) ==> r == Ok(None)
    ensures r.Ok? && r.value.Some? ==> path in disk.configDocs && disk.configDocs[path] == Decoded(r.value.value)
    ensures r.Err? ==> r == Err(ConfigLoadFailed(if path in disk.configDocs then FileUnreadable(path) else FileNotFound(path)))
  {
    if required then
      match ReadRequired(disk.configDocs, path)
      case Err(e) => Err(ConfigLoadFailed(e))
      case Ok(p) => Ok(Some(p))
    else
      match ReadOptional(disk.configDocs, path)
      case Err(e) => Err(ConfigLoadFailed(e))
      case Ok(p) => Ok(p)
  }

  /** An empty config file name is the same as `config.yaml`. */
  lemma DefaultConfigName(workDir: String, overrideFileName: String, disk: Disk)
    ensures LoadConfigFile(workDir, "", overrideFileName, disk) == LoadConfigFile(workDir, "config.yaml", overrideFileName, disk)
  {
    assert ReadMerged(workDir, "", overrideFileName, disk) == ReadMerged(workDir, "config.yaml", overrideFileName, disk);
  }

  /** When neither document sets the folders, containers load from `containers/` and apps from `apps/`. */
  lemma DefaultFolders(workDir: String, overrideFileName: String, disk: Disk)
    requires var r := LoadConfigFile(workDir, "", overrideFileName, disk); r.Ok?
    requires Join(workDir, "config.yaml") in disk.configDocs
    requires disk.configDocs[Join(workDir, "config.yaml")].patch.folders.None?
    requires overrideFileName == ""
    ensures var r := LoadConfigFile(workDir, "", overrideFileName, disk).value;
            r.folders.containersDir == Join(workDir, "containers") && r.folders.appsDir == Join(workDir, "apps")
  {
  }

  /**
   * With no override on disk, a config document that decodes and lists a
   * container that does not load from the containers folder it names (or the
   * default one) makes the whole load fail, at the latest when the containers
   * are loaded.
   */
  lemma FailFast(workDir: String, configFileName: String, overrideFileName: String, disk: Disk, bad: String)
    requires ConfigPath(workDir, configFileName) in disk.configDocs
    requires disk.configDocs[ConfigPath(workDir, configFileName)].Decoded?
    requires OverridePath(workDir, overrideFileName) !in disk.configDocs
    requires var p := disk.configDocs[ConfigPath(workDir, configFileName)].patch;
             p.containers.Some? && bad in p.containers.value
    requires var p := disk.configDocs[ConfigPath(workDir, configFileName)].patch;
             LoadContainerAt(Join(workDir, ContainersFolderAfter(p, "containers")), disk, bad).Err?
    ensures var r := LoadConfigFile(workDir, configFileName, overrideFileName, disk);
            r.Err? && (r.error.ContainerFailed? || r.error == AppsFolderRequired || r.error == ContainersFolderRequired)
  {
    var p := disk.configDocs[ConfigPath(workDir, configFileName)].patch;
    var m := ReadMerged(workDir, configFileName, overrideFileName, disk);
    assert OptionalPatch(disk.configDocs, OverridePath(workDir, overrideFileName), NoConfigChange) == NoConfigChange;
    assert m.Ok? && m.value.containers == p.containers.value;
    var dir := Join(workDir, m.value.folders.containers);
    assert m.value.folders.containers == ContainersFolderAfter(p, "containers");
    var i :| 0 <= i < |m.value.containers| && m.value.containers[i] == bad;
    assert ContainerLoader(dir, disk)(m.value.containers[i]).Err?;
  }
}
