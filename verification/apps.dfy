/** Loading one app definition (`app.yaml` plus its override). */
module Apps {
  import opened Results
  import opened Text
  import opened Models

  /** The values an app holds before any document is decoded onto it. */
  function Defaults(savePath: String): App {
    App("", "Containerfile", [], "", "", None, [], savePath)
  }

  /**
   * LoadApp: decodes `fileName` onto the defaults, then the override if it exists.
   * Nothing is validated.
   */
  function LoadApp(fileName: String, overrideFileName: String, docs: map<String, Doc<AppPatch>>): (r: Result<App, LoadError>)
    ensures r.Ok? <==> fileName in docs && docs[fileName].Decoded?
                       && (overrideFileName == "" || overrideFileName !in docs || docs[overrideFileName].Decoded?)
    ensures r.Ok? ==> r.value.savePath == fileName
    ensures fileName !in docs ==> r == Err(FileNotFound(fileName))
    ensures r.Ok? && docs[fileName].patch.containerfile.None?
            && (overrideFileName == "" || overrideFileName !in docs || docs[overrideFileName].patch.containerfile.None?)
            ==> r.value.containerfile == "Containerfile"
  {
    var base :- ReadRequired(docs, fileName);
    var over :- ReadOptional(docs, overrideFileName);
    var a := ApplyApp(Defaults(fileName), base);
    Ok(if over.Some? then ApplyApp(a, over.value) else a)
  }

  /** An override that does not exist is the same as no override at all. */
  lemma MissingOverrideTolerated(fileName: String, overrideFileName: String, docs: map<String, Doc<AppPatch>>)
    requires overrideFileName !in docs
    ensures LoadApp(fileName, overrideFileName, docs) == LoadApp(fileName, "", docs)
  {
  }

  /**
   * Every field takes the override's value when the override sets it, else the
   * main document's, else the default; a `cmds` block in the override is decoded
   * into the main document's block.
   */
  lemma OverrideWins(fileName: String, overrideFileName: String, docs: map<String, Doc<AppPatch>>)
    requires fileName in docs && docs[fileName].Decoded?
    requires overrideFileName == "" || overrideFileName !in docs || docs[overrideFileName].Decoded?
    ensures LoadApp(fileName, overrideFileName, docs).Ok?
    ensures var a := LoadApp(fileName, overrideFileName, docs).value;
            var b := docs[fileName].patch;
            var o := OptionalPatch(docs, overrideFileName, NoAppChange);
            && a.name == Pick(o.name, Pick(b.name, ""))
            && a.containerfile == Pick(o.containerfile, Pick(b.containerfile, "Containerfile"))
            && a.builderContainerfiles == Pick(o.builderContainerfiles, Pick(b.builderContainerfiles, []))
            && a.version == Pick(o.version, Pick(b.version, ""))
            && a.checksums == Pick(o.checksums, Pick(b.checksums, ""))
            && a.ignoredVersions == Pick(o.ignoredVersions, Pick(b.ignoredVersions, []))
            && a.savePath == fileName
    ensures var a := LoadApp(fileName, overrideFileName, docs).value;
            var b := docs[fileName].patch;
            var o := OptionalPatch(docs, overrideFileName, NoAppChange);
            && (o.cmds.None? && b.cmds.None? ==> a.cmds.None?)
            && (b.cmds.Some? || o.cmds.Some? ==> a.cmds.Some?)
    ensures var a := LoadApp(fileName, overrideFileName, docs).value;
            var b := docs[fileName].patch;
            var o := OptionalPatch(docs, overrideFileName, NoAppChange);
            var baseVersion := if b.cmds.Some? then Pick(b.cmds.value.updateVersion, "") else "";
            var baseChecksums := if b.cmds.Some? then Pick(b.cmds.value.updateChecksums, "") else "";
            a.cmds.Some? ==>
              && a.cmds.value.updateVersion == (if o.cmds.Some? then Pick(o.cmds.value.updateVersion, baseVersion) else baseVersion)
              && a.cmds.value.updateChecksums == (if o.cmds.Some? then Pick(o.cmds.value.updateChecksums, baseChecksums) else baseChecksums)
  {
    var b := docs[fileName].patch;
    var o := OptionalPatch(docs, overrideFileName, NoAppChange);
    var a0 := ApplyApp(Defaults(fileName), b);
    ApplyAppFieldwise(Defaults(fileName), b);
    ApplyAppFieldwise(a0, o);
    assert LoadApp(fileName, overrideFileName, docs).value == ApplyApp(a0, o);
  }

  /** A successful load may leave the name and the version empty. */
  lemma LoadDoesNotValidate()
    ensures var r := LoadApp("apps/x/app.yaml", "", map["apps/x/app.yaml" := Decoded(NoAppChange)]);
            r.Ok? && r.value.name == "" && r.value.version == ""
  {
  }
}
