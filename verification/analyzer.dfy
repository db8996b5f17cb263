/**
 * The change-impact analysis of the `analyze-changes` command: from the list of
 * changed files, decide whether everything must be rebuilt or which container
 * images are affected. Affected containers are the ones whose folder changed,
 * the ones installing a changed app, and, closing over base images, every
 * container built on an affected one.
 *
 * The containers map is keyed by image name. Go's map iteration order only
 * matters for the folder lookup's first match; it is the parameter `order`.
 */
module Analyzer {
  import opened Results
  import opened Text
  import opened Paths
  import opened Models

  datatype PathClass =
    | ConfigChange
    | ContainerHit(folder: String)
    | AppHit(app: String)
    | ToolingChange
    | WorkflowChange
    | Unrecognised

  const WorkflowFile: String := ".github/workflows/build-containers.yaml"

  predicate IsConfigFile(file: String) {
    HasSuffix(file, "config.yaml") || HasSuffix(file, "config.override.yaml")
  }

  /**
   * The path element that follows the first occurrence of `marker`: the text after
   * it up to, not including, the next '/' or the end.
   */
  function Segment(file: String, marker: String): (r: String)
    requires Contains(file, marker)
    ensures '/' !in r
    ensures var after := Cut(file, marker).value.1;
            file == Cut(file, marker).value.0 + marker + after && HasPrefix(after, r) && (r == after || after[|r|] == '/')
  {
    UpToSlash(Cut(file, marker).value.1)
  }

  /**
   * Classification of one changed path, first match wins: a config file, then a
   * path containing "/containers/", then one containing "/apps/", then a Go file
   * under "tools/", then the workflow definition.
   */
  function Classify(file: String): (c: PathClass)
    ensures c == ConfigChange <==> IsConfigFile(file)
    ensures c.ContainerHit? <==> !IsConfigFile(file) && Contains(file, "/containers/")
    ensures c.AppHit? <==> !IsConfigFile(file) && !Contains(file, "/containers/") && Contains(file, "/apps/")
    ensures c == ToolingChange <==>
      (!IsConfigFile(file) && !Contains(file, "/containers/") && !Contains(file, "/apps/")
       && Contains(file, "tools/") && HasSuffix(file, ".go"))
    ensures c == WorkflowChange <==>
      (!IsConfigFile(file) && !Contains(file, "/containers/") && !Contains(file, "/apps/")
       && !(Contains(file, "tools/") && HasSuffix(file, ".go")) && Contains(file, WorkflowFile))
    ensures c.ContainerHit? ==> c.folder == Segment(file, "/containers/") && (IsName(c.folder) || c.folder == "")
    ensures c.AppHit? ==> c.app == Segment(file, "/apps/") && '/' !in c.app
  {
    if IsConfigFile(file) then ConfigChange
    else if Contains(file, "/containers/") then ContainerHit(Segment(file, "/containers/"))
    else if Contains(file, "/apps/") then AppHit(Segment(file, "/apps/"))
    else if Contains(file, "tools/") && HasSuffix(file, ".go") then ToolingChange
    else if Contains(file, WorkflowFile) then WorkflowChange
    else Unrecognised
  }

  /** Changes that make the analysis give up and rebuild everything. */
  predicate TriggersRebuildAll(c: PathClass) {
    c == ConfigChange || c == ToolingChange || c == WorkflowChange
  }

  /** The name of the folder a container was loaded from. */
  function FolderOf(c: ContainerConfig): String {
    Base(Dir(c.savePath))
  }

  /** A container loaded from `<dir>/<name>/container.yaml` belongs to folder `<name>`. */
  lemma LoadedContainerFolder(dir: String, name: String, c: ContainerConfig)
    requires IsName(name) && c.savePath == Join3(dir, name, "container.yaml")
    ensures FolderOf(c) == name
  {
    FolderOfEntityFile(dir, name, "container.yaml");
  }

  /** The first key, in iteration order, of a container stored in `folder`. */
  function FindByFolder(order: seq<String>, cm: map<String, ContainerConfig>, folder: String): (r: Option<String>)
    ensures r.Some? ==> r.value in cm && r.value in order && FolderOf(cm[r.value]) == folder
    ensures r.None? <==> forall i :: 0 <= i < |order| && order[i] in cm ==> FolderOf(cm[order[i]]) != folder
    ensures (forall k :: k in cm ==> k in order) ==> (r.None? <==> forall k :: k in cm ==> FolderOf(cm[k]) != folder)
  {
    if |order| == 0 then None
    else if order[0] in cm && FolderOf(cm[order[0]]) == folder then Some(order[0])
    else
      var r := FindByFolder(order[1..], cm, folder);
      assert forall i :: 1 <= i < |order| ==> order[i] == order[1..][i - 1];
      r
  }

  /** When only one container lives in `folder`, the lookup finds it whatever the iteration order. */
  lemma {:induction false} FindByFolderUnique(order: seq<String>, cm: map<String, ContainerConfig>, folder: String, k: String)
    requires k in cm && k in order && FolderOf(cm[k]) == folder
    requires forall k' :: k' in cm && FolderOf(cm[k']) == folder ==> k' == k
    ensures FindByFolder(order, cm, folder) == Some(k)
  {
    if order[0] != k {
      assert k in order[1..];
      FindByFolderUnique(order[1..], cm, folder, k);
    }
  }

  /** The image a changed path marks directly: the container stored in the named folder, if any. */
  function HitOf(c: PathClass, order: seq<String>, cm: map<String, ContainerConfig>): set<String> {
    match c
    case ContainerHit(folder) =>
      (match FindByFolder(order, cm, folder)
       case Some(k) => {cm[k].imageName}
       case None => {})
    case _ => {}
  }

  function AppOf(c: PathClass): set<String> {
    if c.AppHit? then {c.app} else {}
  }

  /** Everything the paths contribute, path by path. */
  function UnionOver(files: seq<String>, f: String -> set<String>): set<String> {
    if |files| == 0 then {}
    else UnionOver(files[..|files| - 1], f) + f(files[|files| - 1])
  }

  lemma {:induction false} UnionOverMembers(files: seq<String>, f: String -> set<String>)
    ensures forall x :: x in UnionOver(files, f) <==> exists i :: 0 <= i < |files| && x in f(files[i])
    decreases |files|
  {
    if |files| > 0 {
      var init := files[..|files| - 1];
      UnionOverMembers(init, f);
      assert forall i :: 0 <= i < |init| ==> init[i] == files[i];
    }
  }

  /** The images the changed paths mark directly. */
  function DirectHits(files: seq<String>, classify: String -> PathClass, order: seq<String>, cm: map<String, ContainerConfig>): set<String> {
    UnionOver(files, f => HitOf(classify(f), order, cm))
  }

  /** The apps whose folders changed. */
  function ChangedApps(files: seq<String>, classify: String -> PathClass): set<String> {
    UnionOver(files, f => AppOf(classify(f)))
  }

  /** The direct hits are the images marked by each path in turn. */
  lemma DirectHitsMembers(files: seq<String>, classify: String -> PathClass, order: seq<String>, cm: map<String, ContainerConfig>)
    ensures forall x :: x in DirectHits(files, classify, order, cm) <==>
      exists i :: 0 <= i < |files| && x in HitOf(classify(files[i]), order, cm)
  {
    UnionOverMembers(files, f => HitOf(classify(f), order, cm));
  }

  /** An app changed exactly when some path lies in its folder. */
  lemma ChangedAppsMembers(files: seq<String>, classify: String -> PathClass)
    ensures forall a :: a in ChangedApps(files, classify) <==>
      exists i :: 0 <= i < |files| && classify(files[i]) == AppHit(a)
  {
    UnionOverMembers(files, f => AppOf(classify(f)));
  }

  /** A container installs one of the changed apps. */
  predicate UsesAny(c: ContainerConfig, apps: set<String>) {
    exists i :: 0 <= i < |c.apps| && c.apps[i] in apps
  }

  function AppUsers(cm: map<String, ContainerConfig>, apps: set<String>): set<String> {
    set k | k in cm && UsesAny(cm[k], apps)
  }

  /** The containers the changed paths mark before the base images are followed. */
  function Seed(files: seq<String>, classify: String -> PathClass, order: seq<String>, cm: map<String, ContainerConfig>): set<String> {
    DirectHits(files, classify, order, cm) + AppUsers(cm, ChangedApps(files, classify))
  }

  /** A set of images that contains every container built on one of its members. */
  predicate Closed(cm: map<String, ContainerConfig>, s: set<String>) {
    forall k :: k in cm && cm[k].baseImage in s ==> k in s
  }

  /** `r` is the smallest set containing `seed` and closed over base images. */
  ghost predicate LeastClosedAbove(cm: map<String, ContainerConfig>, seed: set<String>, r: set<String>) {
    seed <= r && Closed(cm, r) && forall s :: seed <= s && Closed(cm, s) ==> r <= s
  }

  /** The closure does not depend on the order in which it was computed. */
  lemma LeastClosedUnique(cm: map<String, ContainerConfig>, seed: set<String>, r1: set<String>, r2: set<String>)
    requires LeastClosedAbove(cm, seed, r1) && LeastClosedAbove(cm, seed, r2)
    ensures r1 == r2
  {
  }

  /** A base-image chain from c[0] down to a member of `seed`. */
  ghost predicate IsChain(cm: map<String, ContainerConfig>, seed: set<String>, c: seq<String>) {
    |c| >= 1 && c[|c| - 1] in seed
    && forall i :: 0 <= i < |c| - 1 ==> c[i] in cm && cm[c[i]].baseImage == c[i + 1]
  }

  /** Every container with a base-image chain into the seed is in any closed set above the seed. */
  lemma {:induction false} ChainInClosed(cm: map<String, ContainerConfig>, seed: set<String>, s: set<String>, c: seq<String>)
    requires seed <= s && Closed(cm, s) && IsChain(cm, seed, c)
    ensures c[0] in s
    decreases |c|
  {
    if |c| > 1 {
      var tail := c[1..];
      assert IsChain(cm, seed, tail) by {
        forall i | 0 <= i < |tail| - 1 ensures tail[i] in cm && cm[tail[i]].baseImage == tail[i + 1] {
          assert tail[i] == c[i + 1] && tail[i + 1] == c[i + 2];
        }
      }
      ChainInClosed(cm, seed, s, tail);
      assert cm[c[0]].baseImage == c[1];
    }
  }

  /** The members of `r` that are justified by a base-image chain into the seed. */
  ghost function Justified(cm: map<String, ContainerConfig>, seed: set<String>, r: set<String>): set<String> {
    set k | k in r && exists c :: IsChain(cm, seed, c) && c[0] == k
  }

  /** A container built on the head of a chain extends that chain. */
  lemma ChainExtends(cm: map<String, ContainerConfig>, seed: set<String>, k: String, c: seq<String>)
    requires IsChain(cm, seed, c) && k in cm && cm[k].baseImage == c[0]
    ensures IsChain(cm, seed, [k] + c) && ([k] + c)[0] == k
  {
    var c' := [k] + c;
    forall i | 0 <= i < |c'| - 1 ensures c'[i] in cm && cm[c'[i]].baseImage == c'[i + 1] {
      if i > 0 {
        assert c'[i] == c[i - 1] && c'[i + 1] == c[i];
      }
    }
  }

  /** Within a closed set above the seed, the justified members again form a closed set above the seed. */
  lemma JustifiedClosed(cm: map<String, ContainerConfig>, seed: set<String>, r: set<String>)
    requires seed <= r && Closed(cm, r)
    ensures seed <= Justified(cm, seed, r) && Closed(cm, Justified(cm, seed, r))
  {
    var j := Justified(cm, seed, r);
    forall k | k in seed ensures k in j {
      assert IsChain(cm, seed, [k]);
    }
    forall k | k in cm && cm[k].baseImage in j ensures k in j {
      var c :| IsChain(cm, seed, c) && c[0] == cm[k].baseImage;
      ChainExtends(cm, seed, k, c);
    }
  }

  /**
   * The closure is exactly the set of containers with a base-image chain into the
   * seed: each one in it is justified by a chain, and each chain is followed.
   */
  lemma LeastClosedIsReachable(cm: map<String, ContainerConfig>, seed: set<String>, r: set<String>)
    requires LeastClosedAbove(cm, seed, r)
    ensures forall k :: k in r ==> exists c :: IsChain(cm, seed, c) && c[0] == k
    ensures forall c :: IsChain(cm, seed, c) ==> c[0] in r
  {
    JustifiedClosed(cm, seed, r);
    assert r <= Justified(cm, seed, r);
    forall c | IsChain(cm, seed, c) ensures c[0] in r {
      ChainInClosed(cm, seed, r, c);
    }
  }

  /**
   * One pass of the fixed-point loop: every container not yet dirty whose base
   * image is dirty becomes dirty. `changed` reports whether any did.
   */
  method Pass(cm: map<String, ContainerConfig>, dirty: set<String>) returns (next: set<String>, changed: bool)
    ensures dirty <= next && next - dirty <= cm.Keys
    ensures changed <==> next != dirty
    ensures !changed ==> Closed(cm, dirty)
    ensures forall s :: dirty <= s && Closed(cm, s) ==> next <= s
  {
    next, changed := dirty, false;
    var todo := cm.Keys;
    while todo != {}
      invariant todo <= cm.Keys
      invariant dirty <= next && next - dirty <= cm.Keys
      invariant changed <==> next != dirty
      invariant !changed ==> forall k :: k in cm && k !in todo && k !in next ==> cm[k].baseImage !in next
      invariant forall s :: dirty <= s && Closed(cm, s) ==> next <= s
      decreases todo
    {
      var k :| k in todo;
      todo := todo - {k};
      if k in next {
        continue;
      }
      if cm[k].baseImage in next {
        next := next + {k};
        changed := true;
      }
    }
  }

  lemma ProperSubsetSmaller<T>(a: set<T>, b: set<T>)
    requires a < b
    ensures |a| < |b|
  {
    var d := b - a;
    assert b == a + d && a * d == {};
  }

  /** The fixed-point loop: passes until one adds nothing. */
  method CloseOverBaseImages(cm: map<String, ContainerConfig>, seed: set<String>) returns (r: set<String>)
    ensures LeastClosedAbove(cm, seed, r)
    ensures r - seed <= cm.Keys
  {
    r := seed;
    var changed := true;
    while changed
      invariant seed <= r && r - seed <= cm.Keys
      invariant !changed ==> Closed(cm, r)
      invariant forall s :: seed <= s && Closed(cm, s) ==> r <= s
      decreases |cm.Keys - r|, if changed then 1 else 0
    {
      var next;
      next, changed := Pass(cm, r);
      if changed {
        var k :| k in next && k !in r;
        assert k in cm.Keys - r && k !in cm.Keys - next;
        ProperSubsetSmaller(cm.Keys - next, cm.Keys - r);
      }
      r := next;
    }
  }

  /** The containers that install a changed app, found container by container. */
  method CollectAppUsers(cm: map<String, ContainerConfig>, apps: set<String>) returns (users: set<String>)
    ensures users == AppUsers(cm, apps)
  {
    users := {};
    var todo := cm.Keys;
    while todo != {}
      invariant todo <= cm.Keys
      invariant users == AppUsers(cm, apps) - todo
      decreases todo
    {
      var k :| k in todo;
      todo := todo - {k};
      var i := 0;
      while i < |cm[k].apps|
        invariant 0 <= i <= |cm[k].apps|
        invariant forall j :: 0 <= j < i ==> cm[k].apps[j] !in apps
      {
        if cm[k].apps[i] in apps {
          users := users + {k};
          break;
        }
        i := i + 1;
      }
    }
  }

  /** The outcome: rebuild everything, or the image names of the containers to rebuild. */
  datatype Analysis = Analysis(rebuildAll: bool, containers: set<String>)

  /** In a well-indexed map, every directly marked image is a key. */
  lemma DirectHitsAreKeys(files: seq<String>, classify: String -> PathClass, order: seq<String>, cm: map<String, ContainerConfig>)
    requires ContainersIndexed(cm)
    ensures DirectHits(files, classify, order, cm) <= cm.Keys
  {
    DirectHitsMembers(files, classify, order, cm);
  }

  /** Paths that are all unrecognised mark nothing. */
  lemma UnrecognisedSeedEmpty(files: seq<String>, classify: String -> PathClass, order: seq<String>, cm: map<String, ContainerConfig>)
    requires forall i :: 0 <= i < |files| ==> classify(files[i]) == Unrecognised
    ensures Seed(files, classify, order, cm) == {}
  {
    DirectHitsMembers(files, classify, order, cm);
    ChangedAppsMembers(files, classify);
  }

  /**
   * The loop over the changed files: stops at the first tooling or workflow
   * change, and otherwise notes config changes, marked containers and changed apps.
   */
  method ScanChanges(files: seq<String>, classify: String -> PathClass, order: seq<String>, cm: map<String, ContainerConfig>)
    returns (stop: bool, configChanged: bool, hits: set<String>, apps: set<String>)
    ensures stop <==> exists i :: 0 <= i < |files| && (classify(files[i]) == ToolingChange || classify(files[i]) == WorkflowChange)
    ensures !stop ==> (configChanged <==> exists i :: 0 <= i < |files| && classify(files[i]) == ConfigChange)
    ensures !stop ==> hits == DirectHits(files, classify, order, cm) && apps == ChangedApps(files, classify)
  {
    configChanged, hits, apps := false, {}, {};
    for i := 0 to |files|
      invariant configChanged <==> exists j :: 0 <= j < i && classify(files[j]) == ConfigChange
      invariant forall j :: 0 <= j < i ==> classify(files[j]) != ToolingChange && classify(files[j]) != WorkflowChange
      invariant hits == DirectHits(files[..i], classify, order, cm)
      invariant apps == ChangedApps(files[..i], classify)
    {
      var c := classify(files[i]);
      if c == ToolingChange || c == WorkflowChange {
        return true, configChanged, hits, apps;
      }
      assert files[..i + 1][..i] == files[..i];
      if c == ConfigChange {
        configChanged := true;
      }
      hits := hits + HitOf(c, order, cm);
      apps := apps + AppOf(c);
    }
    assert files[..|files|] == files;
    stop := false;
  }

  /**
   * analyzeChanges with the path classification as a parameter: no changed files
   * or any file that triggers a full rebuild gives `rebuildAll`; otherwise the
   * result is the closure over base images of the directly marked containers and
   * the users of changed apps.
   */
  method AnalyzeChanges(files: seq<String>, cm: map<String, ContainerConfig>, order: seq<String>, classify: String -> PathClass)
    returns (a: Analysis)
    ensures |files| == 0 ==> a == Analysis(true, {})
    ensures a.rebuildAll <==> |files| == 0 || exists i :: 0 <= i < |files| && TriggersRebuildAll(classify(files[i]))
    ensures a.rebuildAll ==> a.containers == {}
    ensures !a.rebuildAll ==> LeastClosedAbove(cm, Seed(files, classify, order, cm), a.containers)
    ensures ContainersIndexed(cm) ==> a.containers <= cm.Keys
    ensures |files| > 0 && (forall i :: 0 <= i < |files| ==> classify(files[i]) == Unrecognised) ==> a == Analysis(false, {})
  {
    if |files| == 0 {
      return Analysis(true, {});
    }
    var stop, configChanged, hits, apps := ScanChanges(files, classify, order, cm);
    if stop || configChanged {
      return Analysis(true, {});
    }
    var users := CollectAppUsers(cm, apps);
    var dirty := hits + users;
    var closed: set<String> := {};
    if |dirty| > 0 {
      closed := CloseOverBaseImages(cm, dirty);
    } else {
      assert Closed(cm, {});
    }
    if ContainersIndexed(cm) {
      DirectHitsAreKeys(files, classify, order, cm);
    }
    if forall i :: 0 <= i < |files| ==> classify(files[i]) == Unrecognised {
      UnrecognisedSeedEmpty(files, classify, order, cm);
      assert Closed(cm, {});
    }
    return Analysis(false, closed);
  }

  /**
   * With the classification of the Go code, a path relative to the working
   * directory is not recognised: the markers need a '/' in front of the folder.
   */
  lemma RelativeContainerPathUnrecognised()
    ensures Classify("containers/c/f") == Unrecognised
  {
    var s := "containers/c/f";
    assert s[..10] == "containers" && '/' !in "containers";
    forall j | 0 <= j ensures !OccursAt(s, "/containers/", j) && !OccursAt(s, "/apps/", j) {
      MarkerAbsent(s, 10, "/containers/", j);
      MarkerAbsent(s, 10, "/apps/", j);
    }
    Unmatched(s);
  }

  lemma RelativeAppPathUnrecognised()
    ensures Classify("apps/a/f") == Unrecognised
  {
    var s := "apps/a/f";
    assert s[..4] == "apps" && '/' !in "apps";
    forall j | 0 <= j ensures !OccursAt(s, "/containers/", j) && !OccursAt(s, "/apps/", j) {
      MarkerAbsent(s, 4, "/containers/", j);
      MarkerAbsent(s, 4, "/apps/", j);
    }
    Unmatched(s);
  }

  /** A marker starting with '/' cannot occur where `s` has no '/' and leaves no room after its first '/'. */
  lemma MarkerAbsent(s: String, firstSlash: nat, marker: String, j: nat)
    requires |marker| > 0 && marker[0] == '/'
    requires firstSlash <= |s| && '/' !in s[..firstSlash] && firstSlash + |marker| > |s|
    ensures !OccursAt(s, marker, j)
  {
  }

  /** A short path that contains neither marker and is no config, Go or workflow file is unrecognised. */
  lemma Unmatched(s: String)
    requires forall j :: 0 <= j ==> !OccursAt(s, "/containers/", j) && !OccursAt(s, "/apps/", j)
    requires |s| < |WorkflowFile| && !IsConfigFile(s) && !HasSuffix(s, ".go")
    ensures Classify(s) == Unrecognised
  {
    ContainsIff(s, "/containers/");
    ContainsIff(s, "/apps/");
    ContainsIff(s, WorkflowFile);
  }

  /** Classification of a path relative to the working directory, as the paths are documented. */
  function ClassifyRelative(file: String): PathClass {
    Classify("/" + file)
  }

  lemma IsConfigFileRelative(file: String)
    ensures IsConfigFile("/" + file) <==> IsConfigFile(file)
  {
    HasSuffixCons('/', file, "config.yaml");
    HasSuffixCons('/', file, "config.override.yaml");
  }

  /** A relative path inside a container folder marks that folder. */
  lemma ClassifyRelativeContainer(folder: String, rest: String)
    requires IsName(folder) && !IsConfigFile("containers/" + folder + "/" + rest)
    ensures ClassifyRelative("containers/" + folder + "/" + rest) == ContainerHit(folder)
  {
    var s := "/" + ("containers/" + folder + "/" + rest);
    assert s == "/containers/" + (folder + "/" + rest);
    IsConfigFileRelative("containers/" + folder + "/" + rest);
    assert HasPrefix(s, "/containers/") by {
      assert s[..12] == "/containers/";
    }
    OccursAtStart(s, "/containers/");
    assert Cut(s, "/containers/").value.1 == folder + "/" + rest by {
      assert s[12..] == folder + "/" + rest;
    }
    UpToSlashOfJoin(folder, rest);
  }

  /** A relative path inside an app folder marks that app, unless it also names a container folder. */
  lemma ClassifyRelativeApp(app: String, rest: String)
    requires IsName(app) && !IsConfigFile("apps/" + app + "/" + rest)
    requires !Contains("/apps/" + app + "/" + rest, "/containers/")
    ensures ClassifyRelative("apps/" + app + "/" + rest) == AppHit(app)
  {
    var s := "/" + ("apps/" + app + "/" + rest);
    var after := app + "/" + rest;
    assert s == "/apps/" + after == "/apps/" + app + "/" + rest;
    IsConfigFileRelative("apps/" + app + "/" + rest);
    assert HasPrefix(s, "/apps/") by {
      assert s[..6] == "/apps/";
    }
    OccursAtStart(s, "/apps/");
    assert !Contains(s, "/containers/");
    assert Classify(s) == AppHit(Segment(s, "/apps/"));
    assert Cut(s, "/apps/").value.1 == after by {
      assert s[6..] == after;
    }
    UpToSlashOfJoin(app, rest);
  }

  /**
   * The analysis with the corrected classification: a single changed file inside
   * the folder of exactly one container marks that container, and so every
   * container built on it.
   */
  method AnalyzeRelativeChanges(files: seq<String>, cm: map<String, ContainerConfig>, order: seq<String>)
    returns (a: Analysis)
    ensures a == Analysis(true, {}) <==> |files| == 0 || exists i :: 0 <= i < |files| && TriggersRebuildAll(ClassifyRelative(files[i]))
    ensures !a.rebuildAll ==> LeastClosedAbove(cm, Seed(files, ClassifyRelative, order, cm), a.containers)
  {
    a := AnalyzeChanges(files, cm, order, ClassifyRelative);
  }

  lemma SingleContainerChange(folder: String, rest: String, cm: map<String, ContainerConfig>, order: seq<String>, k: String)
    requires IsName(folder) && !IsConfigFile("containers/" + folder + "/" + rest)
    requires k in cm && k in order && FolderOf(cm[k]) == folder
    requires forall k' :: k' in cm && FolderOf(cm[k']) == folder ==> k' == k
    ensures cm[k].imageName in Seed(["containers/" + folder + "/" + rest], ClassifyRelative, order, cm)
  {
    var files := ["containers/" + folder + "/" + rest];
    ClassifyRelativeContainer(folder, rest);
    FindByFolderUnique(order, cm, folder, k);
    DirectHitsMembers(files, ClassifyRelative, order, cm);
    assert cm[k].imageName in HitOf(ClassifyRelative(files[0]), order, cm);
  }
}
