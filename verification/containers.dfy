/** Loading and validating one container definition (`container.yaml` plus its override). */
module Containers {
  import opened Results
  import opened Text
  import opened Paths
  import opened Models

  datatype ValidationError =
    | ContainerfileRequired
    | ContainerfileMissing(path: String)
    | BaseImageRequired
    | ImageNameRequired

  datatype ContainerError = LoadFailed(cause: LoadError) | Invalid(reason: ValidationError)

  /** The values a container holds before any document is decoded onto it. */
  function Defaults(savePath: String): ContainerConfig {
    ContainerConfig("Containerfile", ".", "", "", [], savePath)
  }

  /** A validated container: its containerfile exists and it names a base image and an image. */
  predicate Valid(c: ContainerConfig, existing: set<String>) {
    c.containerfile in existing && c.baseImage != "" && c.imageName != ""
  }

  /** The build context resolved against the container's folder. */
  function ResolveBuildContext(context: String, basePath: String): String {
    if context == "" || context == "." then basePath else Join(basePath, context)
  }

  /**
   * ContainerConfig.Validate: resolves the containerfile and build context against
   * `basePath` and checks, in this order, that the containerfile is named and exists,
   * that the base image is set and that the image name is set. `existing` holds the
   * paths for which a stat does not report non-existence.
   */
  function Validate(c: ContainerConfig, basePath: String, existing: set<String>): (r: Result<ContainerConfig, ValidationError>)
    ensures r.Ok? <==>
      c.containerfile != "" && Join(basePath, c.containerfile) in existing && c.baseImage != "" && c.imageName != ""
    ensures r.Ok? ==> Valid(r.value, existing)
    ensures r.Ok? ==> r.value.containerfile == Join(basePath, c.containerfile)
    ensures r.Ok? ==> r.value.buildContext == ResolveBuildContext(c.buildContext, basePath)
    ensures r.Ok? ==> r.value == c.(containerfile := r.value.containerfile, buildContext := r.value.buildContext)
    ensures c.containerfile == "" ==> r == Err(ContainerfileRequired)
    ensures c.containerfile != "" && Join(basePath, c.containerfile) !in existing ==>
      r == Err(ContainerfileMissing(Join(basePath, c.containerfile)))
    ensures c.containerfile != "" && Join(basePath, c.containerfile) in existing && c.baseImage == "" ==>
      r == Err(BaseImageRequired)
  {
    if c.containerfile == "" then Err(ContainerfileRequired)
    else
      var containerfile := Join(basePath, c.containerfile);
      if containerfile !in existing then Err(ContainerfileMissing(containerfile))
      else
        var context := ResolveBuildContext(c.buildContext, basePath);
        if c.baseImage == "" then Err(BaseImageRequired)
        else if c.imageName == "" then Err(ImageNameRequired)
        else Ok(c.(containerfile := containerfile, buildContext := context))
  }

  /** The container after its documents are decoded onto the defaults, before validation. */
  function Merge(fileName: String, overrideFileName: String, docs: map<String, Doc<ContainerPatch>>): Result<ContainerConfig, LoadError> {
    var base :- ReadRequired(docs, fileName);
    var over :- ReadOptional(docs, overrideFileName);
    var c := ApplyContainer(Defaults(fileName), base);
    Ok(if over.Some? then ApplyContainer(c, over.value) else c)
  }

  /**
   * LoadContainerConfig: decodes `fileName` onto the defaults, then the override if
   * it exists, then validates against the folder holding `fileName`.
   */
  function LoadContainerConfig(fileName: String, overrideFileName: String,
                               docs: map<String, Doc<ContainerPatch>>, existing: set<String>): (r: Result<ContainerConfig, ContainerError>)
    ensures r.Ok? ==> Valid(r.value, existing) && r.value.savePath == fileName
    ensures fileName !in docs ==> r == Err(LoadFailed(FileNotFound(fileName)))
    ensures r.Ok? ==> fileName in docs && docs[fileName].Decoded?
    ensures overrideFileName != "" && overrideFileName in docs && docs[overrideFileName].Unreadable? ==> r.Err?
  {
    match Merge(fileName, overrideFileName, docs)
    case Err(e) => Err(LoadFailed(e))
    case Ok(c) =>
      match Validate(c, Dir(fileName), existing)
      case Err(v) => Err(Invalid(v))
      case Ok(valid) => Ok(valid)
  }

  /**
   * The container as its documents describe it: each field is the override's value
   * when the override sets it, else the main document's, else the default.
   */
  function Layered(fileName: String, base: ContainerPatch, over: ContainerPatch): ContainerConfig {
    ContainerConfig(
      Pick(over.containerfile, Pick(base.containerfile, "Containerfile")),
      Pick(over.buildContext, Pick(base.buildContext, ".")),
      Pick(over.imageName, Pick(base.imageName, "")),
      Pick(over.baseImage, Pick(base.baseImage, "")),
      Pick(over.apps, Pick(base.apps, [])),
      fileName)
  }

  /**
   * Loading succeeds iff the main document decodes, the override is absent or
   * decodes, and the layered container validates against the main document's
   * folder; the result is that validated container. A failure reports the main
   * document, then the override, then the validation error.
   */
  lemma LoadLayered(fileName: String, overrideFileName: String,
                    docs: map<String, Doc<ContainerPatch>>, existing: set<String>)
    ensures var r := LoadContainerConfig(fileName, overrideFileName, docs, existing);
            r.Ok? <==> && fileName in docs && docs[fileName].Decoded?
                       && (overrideFileName == "" || overrideFileName !in docs || docs[overrideFileName].Decoded?)
                       && Validate(Layered(fileName, docs[fileName].patch, OptionalPatch(docs, overrideFileName, NoContainerChange)),
                                   Dir(fileName), existing).Ok?
    ensures var r := LoadContainerConfig(fileName, overrideFileName, docs, existing);
            r.Ok? ==> r.value == Validate(Layered(fileName, docs[fileName].patch, OptionalPatch(docs, overrideFileName, NoContainerChange)),
                                          Dir(fileName), existing).value
    ensures fileName in docs && docs[fileName].Unreadable? ==>
      LoadContainerConfig(fileName, overrideFileName, docs, existing) == Err(LoadFailed(FileUnreadable(fileName)))
    ensures fileName in docs && docs[fileName].Decoded? && overrideFileName != "" && overrideFileName in docs
            && docs[overrideFileName].Unreadable? ==>
      LoadContainerConfig(fileName, overrideFileName, docs, existing) == Err(LoadFailed(FileUnreadable(overrideFileName)))
    ensures fileName in docs && docs[fileName].Decoded?
            && (overrideFileName == "" || overrideFileName !in docs || docs[overrideFileName].Decoded?) ==>
      var v := Validate(Layered(fileName, docs[fileName].patch, OptionalPatch(docs, overrideFileName, NoContainerChange)),
                        Dir(fileName), existing);
      v.Err? ==> LoadContainerConfig(fileName, overrideFileName, docs, existing) == Err(Invalid(v.error))
  {
    if fileName in docs && docs[fileName].Decoded?
       && (overrideFileName == "" || overrideFileName !in docs || docs[overrideFileName].Decoded?) {
      var b := docs[fileName].patch;
      var o := OptionalPatch(docs, overrideFileName, NoContainerChange);
      var c0 := ApplyContainer(Defaults(fileName), b);
      ApplyContainerFieldwise(Defaults(fileName), b);
      ApplyContainerFieldwise(c0, o);
      assert Merge(fileName, overrideFileName, docs) == Ok(ApplyContainer(c0, o));
      assert ApplyContainer(c0, o) == Layered(fileName, b, o);
    }
  }

  /** An override that does not exist is the same as no override at all. */
  lemma MissingOverrideTolerated(fileName: String, overrideFileName: String,
                                 docs: map<String, Doc<ContainerPatch>>, existing: set<String>)
    requires overrideFileName !in docs
    ensures LoadContainerConfig(fileName, overrideFileName, docs, existing) == LoadContainerConfig(fileName, "", docs, existing)
  {
  }

  /**
   * A container document that sets only the image name and base image gets the
   * defaults: `Containerfile` in its own folder, the folder itself as build
   * context, and no apps.
   */
  lemma LoadDefaults(fileName: String, docs: map<String, Doc<ContainerPatch>>, existing: set<String>,
                     imageName: String, baseImage: String)
    requires imageName != "" && baseImage != ""
    requires fileName in docs && docs[fileName] == Decoded(ContainerPatch(None, None, Some(imageName), Some(baseImage), None))
    requires Join(Dir(fileName), "Containerfile") in existing
    ensures LoadContainerConfig(fileName, "", docs, existing)
         == Ok(ContainerConfig(Join(Dir(fileName), "Containerfile"), Dir(fileName), imageName, baseImage, [], fileName))
  {
  }

  /**
   * The builder's constructor and validation: a document that sets only the image
   * name and base image, validated against `basePath`, yields the defaults resolved
   * against that folder.
   */
  lemma BuilderDefaults(basePath: String, existing: set<String>, imageName: String, baseImage: String)
    requires imageName != "" && baseImage != ""
    requires Join(basePath, "Containerfile") in existing
    ensures Validate(ApplyContainer(Defaults(""), ContainerPatch(None, None, Some(imageName), Some(baseImage), None)), basePath, existing)
         == Ok(ContainerConfig(Join(basePath, "Containerfile"), basePath, imageName, baseImage, [], ""))
  {
  }
}
