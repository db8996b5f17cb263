/**
 * Containerfile.BuildContainerfile: the single build script fed to the engine,
 * assembled from the apps' builder fragments, the container's own Containerfile
 * and the apps' final fragments, each followed by a newline.
 */
module Containerfile {
  import opened Results
  import opened Text
  import opened Paths
  import opened Models

  datatype Stage = BuilderStage(app: String) | BaseStage | FinalStage(app: String)

  /** One file to read, and the part of the script it belongs to. */
  datatype Fragment = Fragment(stage: Stage, path: String)

  function AppDir(workDir: String, app: App): String {
    Join3(workDir, "apps", app.name)
  }

  /** The builder fragments of one app, in the order it lists them. */
  function BuilderFragments(workDir: String, app: App): (r: seq<Fragment>)
    ensures |r| == |app.builderContainerfiles|
  {
    seq(|app.builderContainerfiles|, i requires 0 <= i < |app.builderContainerfiles| =>
      Fragment(BuilderStage(app.name), Join(AppDir(workDir, app), app.builderContainerfiles[i])))
  }

  /** The builder fragments of all apps, app after app. */
  function AllBuilderFragments(workDir: String, apps: seq<App>): seq<Fragment> {
    if |apps| == 0 then []
    else AllBuilderFragments(workDir, apps[..|apps| - 1]) + BuilderFragments(workDir, apps[|apps| - 1])
  }

  /** The container's own Containerfile: the file name is fixed, whatever the container config says. */
  function BaseFragment(workDir: String, container: String): Fragment {
    Fragment(BaseStage, Join(Join3(workDir, "containers", container), "Containerfile"))
  }

  /** The final fragment of every app, in app order. */
  function FinalFragments(workDir: String, apps: seq<App>): (r: seq<Fragment>)
    ensures |r| == |apps|
  {
    seq(|apps|, i requires 0 <= i < |apps| => Fragment(FinalStage(apps[i].name), Join(AppDir(workDir, apps[i]), apps[i].containerfile)))
  }

  /** Every file of the script, in the order it is read. */
  function Fragments(workDir: String, container: String, apps: seq<App>): seq<Fragment> {
    AllBuilderFragments(workDir, apps) + [BaseFragment(workDir, container)] + FinalFragments(workDir, apps)
  }

  predicate Readable(frags: seq<Fragment>, files: map<String, String>) {
    forall i :: 0 <= i < |frags| ==> frags[i].path in files
  }

  /** The contents of the fragments, each followed by a newline. */
  function Assemble(frags: seq<Fragment>, files: map<String, String>): String
    requires Readable(frags, files)
  {
    if |frags| == 0 then ""
    else Assemble(frags[..|frags| - 1], files) + files[frags[|frags| - 1].path] + "\n"
  }

  /** The first fragment that cannot be read. */
  function FirstUnreadable(frags: seq<Fragment>, files: map<String, String>): (r: Option<Fragment>)
    ensures r.None? <==> Readable(frags, files)
    ensures r.Some? ==> r.value in frags && r.value.path !in files
  {
    if |frags| == 0 then None
    else if frags[0].path !in files then Some(frags[0])
    else
      var r := FirstUnreadable(frags[1..], files);
      assert forall i :: 1 <= i < |frags| ==> frags[i] == frags[1..][i - 1];
      r
  }

  /** The fragment found is preceded only by readable fragments: it is the first unreadable one. */
  lemma {:induction false} FirstUnreadableIsFirst(frags: seq<Fragment>, files: map<String, String>)
    ensures var r := FirstUnreadable(frags, files);
            r.Some? ==> exists i :: 0 <= i < |frags| && frags[i] == r.value && Readable(frags[..i], files)
  {
    if |frags| > 0 && frags[0].path in files {
      var r := FirstUnreadable(frags[1..], files);
      FirstUnreadableIsFirst(frags[1..], files);
      if r.Some? {
        var j :| 0 <= j < |frags[1..]| && frags[1..][j] == r.value && Readable(frags[1..][..j], files);
        var before := frags[..j + 1];
        assert Readable(before, files) by {
          forall k | 0 <= k < |before| ensures before[k].path in files {
            if k > 0 { assert before[k] == frags[1..][..j][k - 1]; }
          }
        }
        assert frags[j + 1] == r.value;
      }
    } else if |frags| > 0 {
      assert Readable(frags[..0], files);
    }
  }

  lemma {:induction false} FirstUnreadableAfter(done: seq<Fragment>, rest: seq<Fragment>, files: map<String, String>)
    requires Readable(done, files)
    ensures FirstUnreadable(done + rest, files) == FirstUnreadable(rest, files)
    decreases |done|
  {
    if |done| > 0 {
      assert done[0].path in files;
      assert Readable(done[1..], files) by {
        forall i | 0 <= i < |done[1..]| ensures done[1..][i].path in files {
          assert done[1..][i] == done[i + 1];
        }
      }
      var all := done + rest;
      assert all[0] == done[0];
      assert all[1..] == done[1..] + rest;
      FirstUnreadableAfter(done[1..], rest, files);
      assert FirstUnreadable(all, files) == FirstUnreadable(all[1..], files);
    } else {
      assert done + rest == rest;
    }
  }

  lemma {:induction false} AllBuilderFragmentsAppend(workDir: String, a: seq<App>, b: seq<App>)
    ensures AllBuilderFragments(workDir, a + b) == AllBuilderFragments(workDir, a) + AllBuilderFragments(workDir, b)
    decreases |b|
  {
    if |b| == 0 {
      assert a + b == a;
    } else {
      var b', last := b[..|b| - 1], b[|b| - 1];
      assert (a + b)[..|a + b| - 1] == a + b' && (a + b)[|a + b| - 1] == last;
      assert AllBuilderFragments(workDir, a + b) == AllBuilderFragments(workDir, a + b') + BuilderFragments(workDir, last);
      assert AllBuilderFragments(workDir, b) == AllBuilderFragments(workDir, b') + BuilderFragments(workDir, last);
      AllBuilderFragmentsAppend(workDir, a, b');
    }
  }

  /** Extending the fragments read so far by one readable fragment extends the text by its contents and a newline. */
  lemma AssembleStep(done: seq<Fragment>, f: Fragment, files: map<String, String>)
    requires Readable(done, files) && f.path in files
    ensures Readable(done + [f], files)
    ensures Assemble(done + [f], files) == Assemble(done, files) + files[f.path] + "\n"
  {
    assert (done + [f])[..|done|] == done;
  }

  /** Reading fails at `f` when every fragment before it was read. */
  lemma FailsAt(all: seq<Fragment>, done: seq<Fragment>, f: Fragment, rest: seq<Fragment>, files: map<String, String>)
    requires all == done + [f] + rest
    requires Readable(done, files) && f.path !in files
    ensures FirstUnreadable(all, files) == Some(f)
  {
    assert all == done + ([f] + rest);
    FirstUnreadableAfter(done, [f] + rest, files);
  }

  /** The first unreadable builder fragment of app `i`, when all earlier apps' fragments were read, is the first of all. */
  lemma AppBuildersFailure(workDir: String, apps: seq<App>, i: nat, files: map<String, String>)
    requires i < |apps|
    requires Readable(AllBuilderFragments(workDir, apps[..i]), files)
    requires !Readable(BuilderFragments(workDir, apps[i]), files)
    ensures FirstUnreadable(AllBuilderFragments(workDir, apps), files) == FirstUnreadable(BuilderFragments(workDir, apps[i]), files)
  {
    AllBuilderSplit(workDir, apps, i);
    FirstUnreadableMiddle(AllBuilderFragments(workDir, apps[..i]), BuilderFragments(workDir, apps[i]),
                          AllBuilderFragments(workDir, apps[i + 1..]), files);
  }

  /** Behind readable fragments, the first unreadable fragment of a middle part is the first of the whole. */
  lemma FirstUnreadableMiddle(pre: seq<Fragment>, mid: seq<Fragment>, later: seq<Fragment>, files: map<String, String>)
    requires Readable(pre, files) && !Readable(mid, files)
    ensures FirstUnreadable(pre + mid + later, files) == FirstUnreadable(mid, files)
  {
    assert pre + mid + later == pre + (mid + later);
    FirstUnreadableAfter(pre, mid + later, files);
    FirstUnreadablePrefix(mid, later, files);
  }

  /** The first unreadable fragment of a prefix is the first of the whole. */
  lemma {:induction false} FirstUnreadablePrefix(a: seq<Fragment>, b: seq<Fragment>, files: map<String, String>)
    requires !Readable(a, files)
    ensures FirstUnreadable(a + b, files) == FirstUnreadable(a, files)
    decreases |a|
  {
    var all := a + b;
    assert all[0] == a[0];
    if a[0].path in files {
      assert all[1..] == a[1..] + b;
      assert !Readable(a[1..], files) by {
        var k :| 0 <= k < |a| && a[k].path !in files;
        assert a[1..][k - 1] == a[k];
      }
      FirstUnreadablePrefix(a[1..], b, files);
    }
  }

  lemma {:induction false} AssembleAppend(a: seq<Fragment>, b: seq<Fragment>, files: map<String, String>)
    requires Readable(a, files) && Readable(b, files)
    ensures Readable(a + b, files)
    ensures Assemble(a + b, files) == Assemble(a, files) + Assemble(b, files)
    decreases |b|
  {
    assert forall i :: 0 <= i < |a + b| ==> (a + b)[i] == if i < |a| then a[i] else b[i - |a|];
    if |b| > 0 {
      var b' := b[..|b| - 1];
      assert (a + b)[..|a + b| - 1] == a + b';
      assert Readable(b', files) by {
        forall i | 0 <= i < |b'| ensures b'[i].path in files {
          assert b'[i] == b[i];
        }
      }
      AssembleAppend(a, b', files);
    } else {
      assert a + b == a;
    }
  }

  lemma AllBuilderSingle(workDir: String, app: App)
    ensures AllBuilderFragments(workDir, [app]) == BuilderFragments(workDir, app)
  {
    assert [app][..0] == [];
  }

  lemma AllBuilderSplit(workDir: String, apps: seq<App>, i: nat)
    requires i < |apps|
    ensures AllBuilderFragments(workDir, apps)
         == AllBuilderFragments(workDir, apps[..i]) + BuilderFragments(workDir, apps[i]) + AllBuilderFragments(workDir, apps[i + 1..])
  {
    var pre, app, rest := apps[..i], apps[i], apps[i + 1..];
    assert apps == pre + ([app] + rest);
    AllBuilderFragmentsAppend(workDir, pre, [app] + rest);
    AllBuilderFragmentsAppend(workDir, [app], rest);
    AllBuilderSingle(workDir, app);
  }

  /** Reads `frags` in order, each followed by a newline, stopping at the first one that cannot be read. */
  method ReadFragments(frags: seq<Fragment>, files: map<String, String>) returns (r: Result<String, Fragment>)
    ensures r.Ok? <==> Readable(frags, files)
    ensures r.Ok? ==> r.value == Assemble(frags, files)
    ensures r.Err? ==> FirstUnreadable(frags, files) == Some(r.error)
  {
    var acc: String := "";
    for k := 0 to |frags|
      invariant Readable(frags[..k], files) && acc == Assemble(frags[..k], files)
    {
      var f := frags[k];
      if f.path !in files {
        assert frags == frags[..k] + [f] + frags[k + 1..];
        FailsAt(frags, frags[..k], f, frags[k + 1..], files);
        return Err(f);
      }
      AssembleStep(frags[..k], f, files);
      acc := acc + files[f.path] + "\n";
      assert frags[..k + 1] == frags[..k] + [f];
    }
    assert frags[..|frags|] == frags;
    return Ok(acc);
  }

  /** The first loop of BuildContainerfile: every builder fragment of every app. */
  method ReadBuilders(workDir: String, apps: seq<App>, files: map<String, String>) returns (r: Result<String, Fragment>)
    ensures r.Ok? <==> Readable(AllBuilderFragments(workDir, apps), files)
    ensures r.Ok? ==> r.value == Assemble(AllBuilderFragments(workDir, apps), files)
    ensures r.Err? ==> FirstUnreadable(AllBuilderFragments(workDir, apps), files) == Some(r.error)
  {
    var res: String := "";
    for i := 0 to |apps|
      invariant Readable(AllBuilderFragments(workDir, apps[..i]), files)
      invariant res == Assemble(AllBuilderFragments(workDir, apps[..i]), files)
    {
      assert apps[..i + 1][..i] == apps[..i] && apps[..i + 1][i] == apps[i];
      assert AllBuilderFragments(workDir, apps[..i + 1])
          == AllBuilderFragments(workDir, apps[..i]) + BuilderFragments(workDir, apps[i]);
      if |apps[i].builderContainerfiles| == 0 {
        assert AllBuilderFragments(workDir, apps[..i]) + BuilderFragments(workDir, apps[i])
            == AllBuilderFragments(workDir, apps[..i]);
        continue;
      }
      var next := ReadFragments(BuilderFragments(workDir, apps[i]), files);
      if next.Err? {
        AppBuildersFailure(workDir, apps, i, files);
        return Err(next.error);
      }
      AssembleAppend(AllBuilderFragments(workDir, apps[..i]), BuilderFragments(workDir, apps[i]), files);
      res := res + next.value;
    }
    assert apps[..|apps|] == apps;
    return Ok(res);
  }

  /**
   * BuildContainerfile. `files` maps every readable path to its contents. The result
   * is the fragments' contents in order, each followed by a newline, or the first
   * fragment that cannot be read.
   */
  method BuildContainerfile(workDir: String, container: String, apps: seq<App>, files: map<String, String>)
    returns (r: Result<String, Fragment>)
    ensures r.Ok? <==> Readable(Fragments(workDir, container, apps), files)
    ensures r.Ok? ==> r.value == Assemble(Fragments(workDir, container, apps), files)
    ensures r.Err? ==> FirstUnreadable(Fragments(workDir, container, apps), files) == Some(r.error)
  {
    var builders := AllBuilderFragments(workDir, apps);
    var base := BaseFragment(workDir, container);
    var finals := FinalFragments(workDir, apps);
    assert Fragments(workDir, container, apps) == builders + ([base] + finals);

    var head := ReadBuilders(workDir, apps, files);
    if head.Err? {
      FirstUnreadablePrefix(builders, [base] + finals, files);
      return Err(head.error);
    }

    if base.path !in files {
      FailsAt(Fragments(workDir, container, apps), builders, base, finals, files);
      return Err(base);
    }
    AssembleStep(builders, base, files);
    var withBase := head.value + files[base.path] + "\n";

    var tail := ReadFragments(finals, files);
    if tail.Err? {
      FirstUnreadableAfter(builders + [base], finals, files);
      return Err(tail.error);
    }
    AssembleAppend(builders + [base], finals, files);
    return Ok(withBase + tail.value);
  }

  function TotalLength(frags: seq<Fragment>, files: map<String, String>): nat
    requires Readable(frags, files)
  {
    if |frags| == 0 then 0 else TotalLength(frags[..|frags| - 1], files) + |files[frags[|frags| - 1].path]|
  }

  function BuilderCount(apps: seq<App>): nat {
    if |apps| == 0 then 0 else BuilderCount(apps[..|apps| - 1]) + |apps[|apps| - 1].builderContainerfiles|
  }

  lemma {:induction false} AssembleLength(frags: seq<Fragment>, files: map<String, String>)
    requires Readable(frags, files)
    ensures |Assemble(frags, files)| == TotalLength(frags, files) + |frags|
    decreases |frags|
  {
    if |frags| > 0 {
      AssembleLength(frags[..|frags| - 1], files);
    }
  }

  lemma {:induction false} BuilderFragmentCount(workDir: String, apps: seq<App>)
    ensures |AllBuilderFragments(workDir, apps)| == BuilderCount(apps)
    decreases |apps|
  {
    if |apps| > 0 {
      BuilderFragmentCount(workDir, apps[..|apps| - 1]);
    }
  }

  /**
   * The script is as long as all fragments together plus one newline per
   * fragment: one per builder fragment, one for the base and one per app.
   */
  lemma ScriptLength(workDir: String, container: String, apps: seq<App>, files: map<String, String>)
    requires Readable(Fragments(workDir, container, apps), files)
    ensures var frags := Fragments(workDir, container, apps);
            |Assemble(frags, files)| == TotalLength(frags, files) + BuilderCount(apps) + 1 + |apps|
  {
    AssembleLength(Fragments(workDir, container, apps), files);
    BuilderFragmentCount(workDir, apps);
  }

  /** With no apps the script is the container's own Containerfile and a newline. */
  lemma NoApps(workDir: String, container: String, files: map<String, String>)
    requires BaseFragment(workDir, container).path in files
    ensures Readable(Fragments(workDir, container, []), files)
    ensures Assemble(Fragments(workDir, container, []), files) == files[BaseFragment(workDir, container).path] + "\n"
  {
    assert Fragments(workDir, container, []) == [BaseFragment(workDir, container)];
    assert Fragments(workDir, container, [])[..0] == [];
  }

  /** An app with no builder fragments adds nothing before the base, and only its final fragment after it. */
  lemma AppWithoutBuilders(workDir: String, container: String, apps: seq<App>, app: App)
    requires app.builderContainerfiles == []
    ensures Fragments(workDir, container, apps + [app])
         == AllBuilderFragments(workDir, apps) + [BaseFragment(workDir, container)]
            + FinalFragments(workDir, apps) + [Fragment(FinalStage(app.name), Join(AppDir(workDir, app), app.containerfile))]
  {
    assert (apps + [app])[..|apps|] == apps;
    assert FinalFragments(workDir, apps + [app]) == FinalFragments(workDir, apps) + [Fragment(FinalStage(app.name), Join(AppDir(workDir, app), app.containerfile))];
  }

  /** For two apps X and Y: builders of X, builders of Y, the base, the final fragment of X, that of Y. */
  lemma TwoAppsOrder(workDir: String, container: String, x: App, y: App)
    ensures Fragments(workDir, container, [x, y])
         == BuilderFragments(workDir, x) + BuilderFragments(workDir, y) + [BaseFragment(workDir, container)]
            + [Fragment(FinalStage(x.name), Join(AppDir(workDir, x), x.containerfile)),
               Fragment(FinalStage(y.name), Join(AppDir(workDir, y), y.containerfile))]
  {
    assert [x, y][..1] == [x];
    assert [x][..0] == [];
    assert AllBuilderFragments(workDir, [x]) == BuilderFragments(workDir, x);
    assert AllBuilderFragments(workDir, [x, y]) == BuilderFragments(workDir, x) + BuilderFragments(workDir, y);
  }
}
