/**
 * The versions table (`versions.yaml`): pinned base images and app versions.
 * In the file format every entry is a pointer, so a key may be present with no
 * value; such entries are `None` here.
 */
module VersionsFile {
  import opened Results
  import opened Text

  datatype BaseImage = BaseImage(localImage: String, image: String, tag: String, digest: String)

  /** The scripts that look up an app's newest version and its checksums. */
  datatype UpdateCmds = UpdateCmds(updateVersion: String, updateChecksums: String)

  datatype AppVersion = AppVersion(version: String, checksums: String, cmds: Option<UpdateCmds>)

  datatype Versions = Versions(
    baseImages: map<String, Option<BaseImage>>,
    apps: map<String, Option<AppVersion>>)
}
